/** Loading of experimental data: a table of rows (time, value, experiment
    number, experimental condition) is validated, sorted by condition and
    time, and split into one time series per experiment number. */
module LoadData {
  import opened Wrappers
  import opened StableSort

  /** What to fit: the annotations of the fitted parameters, of the
      experimental-condition constant and of the simulation output. */
  datatype FittingInstructions = FittingInstructions(
    fittedParamsAnnot: seq<string>,
    expCondParamAnnot: string,
    simOutputParamAnnot: string)

  /** A loaded data set, to which fitting instructions are attached later. */
  class DataExp {
    var times: seq<seq<real>>
    var values: seq<seq<real>>
    var expNums: seq<real>
    var expConds: seq<real>
    var fittingInstructions: Option<FittingInstructions>

    constructor (times: seq<seq<real>>, values: seq<seq<real>>, expNums: seq<real>, expConds: seq<real>)
      ensures this.times == times && this.values == values
      ensures this.expNums == expNums && this.expConds == expConds
      ensures fittingInstructions == None
    {
      this.times := times;
      this.values := values;
      this.expNums := expNums;
      this.expConds := expConds;
      fittingInstructions := None;
    }

    /** Replaces the fitting instructions; the data are left as they are. */
    method AddFittingInstructions(fittedParamsAnnot: seq<string>, expCondParamAnnot: string,
                                  simOutputParamAnnot: string)
      modifies this
      ensures fittingInstructions
           == Some(FittingInstructions(fittedParamsAnnot, expCondParamAnnot, simOutputParamAnnot))
      ensures times == old(times) && values == old(values)
      ensures expNums == old(expNums) && expConds == old(expConds)
    {
      fittingInstructions := Some(FittingInstructions(fittedParamsAnnot, expCondParamAnnot, simOutputParamAnnot));
    }
  }

  /** The exceptions the loader raises: an `IndexError` from indexing a
      column or row that is not there, or the `ValueError` for too many
      columns. */
  datatype LoadError = IndexOutOfRange | TooManyColumns

  /** A parsed table: every row has the width of the first. */
  predicate Rectangular(rows: seq<seq<real>>) {
    forall i :: 0 <= i < |rows| ==> |rows[i]| == |rows[0]|
  }

  /** Every row has exactly the four standard columns. */
  predicate Table(rows: seq<seq<real>>) {
    forall i :: 0 <= i < |rows| ==> |rows[i]| == 4
  }

  /** The exception the loader raises on a parsed table, if any. An empty
      table has no first row; with fewer than two columns the value column
      is missing; more than four columns are refused; with fewer than four
      the sort key (column 3, then column 0) is missing. */
  function TableError(rows: seq<seq<real>>): (e: Option<LoadError>)
    requires Rectangular(rows)
    ensures e == None <==> Table(rows) && |rows| > 0
    ensures e == Some(TooManyColumns) <==> |rows| > 0 && |rows[0]| > 4
  {
    if |rows| == 0 || |rows[0]| < 2 then Some(IndexOutOfRange)
    else if |rows[0]| > 4 then Some(TooManyColumns)
    else if |rows[0]| < 4 then Some(IndexOutOfRange)
    else None
  }

  /** The sort key: experimental condition first, time second. */
  function RowKey(r: seq<real>): Key {
    if |r| == 4 then (r[3], r[0]) else (0.0, 0.0)
  }

  /** Column `c` of a table. */
  function Column(rows: seq<seq<real>>, c: nat): (col: seq<real>)
    requires c < 4 && Table(rows)
    ensures |col| == |rows|
  {
    seq(|rows|, k requires 0 <= k < |rows| => rows[k][c])
  }

  /** The rows flattened into one sequence, row after row. */
  function Flatten(rows: seq<seq<real>>): seq<real> {
    if |rows| == 0 then [] else Flatten(rows[..|rows| - 1]) + rows[|rows| - 1]
  }

  /** A flat sequence cut into rows of four, dropping a ragged end, as
      `reshape(len(data) // 4, 4)` does. */
  function Reshape(flat: seq<real>): (rows: seq<seq<real>>)
    ensures |rows| == |flat| / 4
  {
    seq(|flat| / 4, i requires 0 <= i < |flat| / 4 => flat[i * 4 .. i * 4 + 4])
  }

  /** Flattening a table of width-4 rows and cutting it back into rows of
      four gives the table back. */
  lemma ReshapeFlatten(rows: seq<seq<real>>)
    requires Table(rows)
    ensures Reshape(Flatten(rows)) == rows
  {
    FlattenSlices(rows);
    var r := Reshape(Flatten(rows));
    assert |r| == |rows|;
    forall i | 0 <= i < |rows| ensures r[i] == rows[i] {
      assert r[i] == Flatten(rows)[i * 4 .. i * 4 + 4];
    }
  }

  lemma {:induction false} FlattenSlices(rows: seq<seq<real>>)
    requires Table(rows)
    ensures |Flatten(rows)| == 4 * |rows|
    ensures forall i :: 0 <= i < |rows| ==> Flatten(rows)[i * 4 .. i * 4 + 4] == rows[i]
  {
    if |rows| > 0 {
      var n := |rows| - 1;
      var front := rows[..n];
      assert Table(front) by {
        forall i | 0 <= i < |front| ensures |front[i]| == 4 {
          assert front[i] == rows[i];
        }
      }
      FlattenSlices(front);
      var f := Flatten(front);
      assert Flatten(rows) == f + rows[n];
      forall i | 0 <= i < |rows| ensures Flatten(rows)[i * 4 .. i * 4 + 4] == rows[i] {
        if i < n {
          assert (f + rows[n])[i * 4 .. i * 4 + 4] == f[i * 4 .. i * 4 + 4];
          assert front[i] == rows[i];
        } else {
          assert (f + rows[n])[i * 4 .. i * 4 + 4] == rows[n];
        }
      }
    }
  }

  /** The table in the loader's order: stably sorted by condition, then
      time. */
  function SortedTable(rows: seq<seq<real>>): seq<seq<real>> {
    Sort(rows, RowKey)
  }

  lemma SortedTableIsTable(rows: seq<seq<real>>)
    requires Table(rows)
    ensures Table(SortedTable(rows))
  {
    var s := SortedTable(rows);
    forall i | 0 <= i < |s| ensures |s[i]| == 4 {
      assert s[i] in multiset(rows);
      var j :| 0 <= j < |rows| && rows[j] == s[i];
    }
  }

  /** The sorted table holds the same rows, ordered by condition and then
      time, and rows with equal condition and time keep their file order. */
  lemma SortedTableOrder(rows: seq<seq<real>>, k: Key)
    ensures multiset(SortedTable(rows)) == multiset(rows)
    ensures SortedBy(SortedTable(rows), RowKey)
    ensures WithKey(SortedTable(rows), RowKey, k) == WithKey(rows, RowKey, k)
  {
    SortSorted(rows, RowKey);
    SortStable(rows, RowKey, k);
  }

  predicate NoDuplicates(s: seq<real>) {
    forall i, j :: 0 <= i < j < |s| ==> s[i] != s[j]
  }

  /** The distinct values of `s`, in order of first occurrence. */
  function Distinct(s: seq<real>): (d: seq<real>)
    ensures |d| <= |s|
  {
    if |s| == 0 then []
    else if s[|s| - 1] in s[..|s| - 1] then Distinct(s[..|s| - 1])
    else Distinct(s[..|s| - 1]) + [s[|s| - 1]]
  }

  /** `Distinct` lists each value of `s` exactly once, like `list(set(s))`. */
  lemma {:induction false} DistinctValues(s: seq<real>)
    ensures NoDuplicates(Distinct(s))
    ensures forall x :: x in Distinct(s) <==> x in s
  {
    if |s| > 0 {
      var front := s[..|s| - 1];
      DistinctValues(front);
      assert s == front + [s[|s| - 1]];
    }
  }

  /** A row belongs to the experiment numbered `e`. */
  predicate InGroup(r: seq<real>, e: real) {
    |r| > 2 && r[2] == e
  }

  /** The rows of experiment `e`, in table order. */
  function Select(rows: seq<seq<real>>, e: real): (g: seq<seq<real>>)
    ensures |g| <= |rows|
    ensures Table(rows) ==> Table(g)
  {
    if |rows| == 0 then []
    else if InGroup(rows[0], e) then [rows[0]] + Select(rows[1..], e)
    else Select(rows[1..], e)
  }

  /** The selected rows are exactly the rows of experiment `e`. */
  lemma {:induction false} SelectMembers(rows: seq<seq<real>>, e: real)
    ensures forall r :: r in Select(rows, e) <==> r in rows && InGroup(r, e)
  {
    if |rows| > 0 {
      SelectMembers(rows[1..], e);
      assert rows == [rows[0]] + rows[1..];
    }
  }

  /** Selecting an experiment keeps the order of the sorted table. */
  lemma {:induction false} SelectSorted(rows: seq<seq<real>>, e: real, key: seq<real> -> Key)
    requires SortedBy(rows, key)
    ensures SortedBy(Select(rows, e), key)
  {
    if |rows| > 0 {
      var tail := rows[1..];
      assert SortedBy(tail, key) by {
        forall i, j | 0 <= i < j < |tail| ensures KeyLe(key(tail[i]), key(tail[j])) {
          assert tail[i] == rows[i + 1] && tail[j] == rows[j + 1];
        }
      }
      SelectSorted(tail, e, key);
      if InGroup(rows[0], e) {
        var g := Select(tail, e);
        SelectMembers(tail, e);
        forall j | 0 <= j < |g| ensures KeyLe(key(rows[0]), key(g[j])) {
          assert g[j] in tail;
          var m :| 0 <= m < |tail| && tail[m] == g[j];
          assert tail[m] == rows[m + 1];
        }
        var r := [rows[0]] + g;
        forall i, j | 0 <= i < j < |r| ensures KeyLe(key(r[i]), key(r[j])) {
          if i > 0 {
            assert r[i] == g[i - 1];
          }
          assert r[j] == g[j - 1];
        }
      }
    }
  }

  /** How many entries `x` has in `s`. */
  function Occurrences(s: seq<real>, x: real): nat {
    if |s| == 0 then 0 else (if s[0] == x then 1 else 0) + Occurrences(s[1..], x)
  }

  lemma {:induction false} OccurrencesOnce(s: seq<real>, x: real)
    requires NoDuplicates(s) && x in s
    ensures Occurrences(s, x) == 1
  {
    if s[0] == x {
      OccurrencesAbsent(s[1..], x);
    } else {
      assert NoDuplicates(s[1..]) by {
        forall i, j | 0 <= i < j < |s[1..]| ensures s[1..][i] != s[1..][j] {
          assert s[1..][i] == s[i + 1] && s[1..][j] == s[j + 1];
        }
      }
      OccurrencesOnce(s[1..], x);
    }
  }

  lemma {:induction false} OccurrencesAbsent(s: seq<real>, x: real)
    requires x !in s
    ensures Occurrences(s, x) == 0
  {
    if |s| > 0 {
      assert s == [s[0]] + s[1..];
      OccurrencesAbsent(s[1..], x);
    }
  }

  /** The total number of rows over the experiments listed in `nums`. */
  function GroupedCount(rows: seq<seq<real>>, nums: seq<real>): nat {
    if |nums| == 0 then 0 else |Select(rows, nums[0])| + GroupedCount(rows, nums[1..])
  }

  /** Putting one row in front adds it to the count once per entry of its
      experiment number. */
  lemma {:induction false} GroupedCountCons(r: seq<real>, rows: seq<seq<real>>, nums: seq<real>)
    requires |r| == 4
    ensures GroupedCount([r] + rows, nums) == Occurrences(nums, r[2]) + GroupedCount(rows, nums)
  {
    if |nums| > 0 {
      GroupedCountCons(r, rows, nums[1..]);
      assert ([r] + rows)[1..] == rows;
    }
  }

  lemma {:induction false} GroupedCountEmpty(nums: seq<real>)
    ensures GroupedCount([], nums) == 0
  {
    if |nums| > 0 {
      GroupedCountEmpty(nums[1..]);
    }
  }

  /** The experiments of a table split its rows: when every experiment
      number of the table is listed once, the groups hold every row
      exactly once between them. */
  lemma {:induction false} Partition(rows: seq<seq<real>>, nums: seq<real>)
    requires Table(rows) && NoDuplicates(nums)
    requires forall i :: 0 <= i < |rows| ==> rows[i][2] in nums
    ensures GroupedCount(rows, nums) == |rows|
  {
    if |rows| == 0 {
      GroupedCountEmpty(nums);
    } else {
      Partition(rows[1..], nums);
      GroupedCountCons(rows[0], rows[1..], nums);
      OccurrencesOnce(nums, rows[0][2]);
      assert rows == [rows[0]] + rows[1..];
    }
  }

  /** `times[i]` and `values[i]` are the time and value columns of the rows
      of experiment `nums[i]`. */
  predicate Grouped(data: seq<seq<real>>, nums: seq<real>, times: seq<seq<real>>, values: seq<seq<real>>)
    requires Table(data)
  {
    |times| == |nums| && |values| == |nums| &&
    forall i :: 0 <= i < |nums| ==>
      times[i] == Column(Select(data, nums[i]), 0) && values[i] == Column(Select(data, nums[i]), 1)
  }

  /** The loop that splits the sorted table into one series per experiment
      number. */
  method GroupRows(data: seq<seq<real>>, nums: seq<real>) returns (times: seq<seq<real>>, values: seq<seq<real>>)
    requires Table(data)
    ensures Grouped(data, nums, times, values)
  {
    times, values := [], [];
    var i := 0;
    while i < |nums|
      invariant 0 <= i <= |nums| && |times| == i && |values| == i
      invariant forall k :: 0 <= k < i ==>
        times[k] == Column(Select(data, nums[k]), 0) && values[k] == Column(Select(data, nums[k]), 1)
    {
      var temp := Select(data, nums[i]);
      times := times + [Column(temp, 0)];
      values := values + [Column(temp, 1)];
      i := i + 1;
    }
  }

  /** The total length of the series. */
  function TotalLength(series: seq<seq<real>>): nat {
    if |series| == 0 then 0 else |series[0]| + TotalLength(series[1..])
  }

  lemma {:induction false} GroupedLengths(data: seq<seq<real>>, nums: seq<real>, times: seq<seq<real>>, values: seq<seq<real>>)
    requires Table(data) && Grouped(data, nums, times, values)
    ensures TotalLength(times) == GroupedCount(data, nums)
    ensures TotalLength(values) == GroupedCount(data, nums)
  {
    if |nums| > 0 {
      GroupedLengths(data, nums[1..], times[1..], values[1..]);
    }
  }

  /** When the experiment numbers are the distinct values of column 2 of
      the table, every row lands in exactly one series: each time series
      has as many entries as its value series, the series together hold
      as many entries as the table has rows, and no series is empty. */
  lemma SeriesPartitionTable(data: seq<seq<real>>, times: seq<seq<real>>, values: seq<seq<real>>)
    requires Table(data) && Grouped(data, Distinct(Column(data, 2)), times, values)
    ensures forall i :: 0 <= i < |times| ==> |times[i]| == |values[i]| > 0
    ensures TotalLength(times) == |data| && TotalLength(values) == |data|
  {
    var col := Column(data, 2);
    var nums := Distinct(col);
    DistinctValues(col);
    forall i | 0 <= i < |data| ensures data[i][2] in nums {
      assert col[i] == data[i][2];
    }
    Partition(data, nums);
    GroupedLengths(data, nums, times, values);
    forall i | 0 <= i < |times| ensures |times[i]| == |values[i]| > 0 {
      assert nums[i] in col;
      var j :| 0 <= j < |data| && col[j] == nums[i];
      SelectMembers(data, nums[i]);
      assert data[j] in Select(data, nums[i]);
    }
  }

  /** `load_data_file` after `np.loadtxt`: the parsed table is checked,
      sorted by condition and time, and split by experiment number; the
      experiment numbers and conditions are listed without repetition. */
  method LoadDataFile(table: seq<seq<real>>) returns (r: Result<DataExp, LoadError>)
    requires Rectangular(table)
    ensures r.Failure? <==> TableError(table).Some?
    ensures r.Failure? ==> r.error == TableError(table).value
    ensures r.Success? ==>
      var data := SortedTable(table);
      Table(data) && fresh(r.value) && r.value.fittingInstructions == None &&
      r.value.expNums == Distinct(Column(data, 2)) && r.value.expConds == Distinct(Column(data, 3)) &&
      Grouped(data, r.value.expNums, r.value.times, r.value.values)
  {
    var err := TableError(table);
    if err.Some? {
      return Failure(err.value);
    }
    var sorted := SortedTable(table);
    SortedTableIsTable(table);
    ReshapeFlatten(sorted);
    var data := Reshape(Flatten(sorted));
    var nums := Distinct(Column(data, 2));
    var conds := Distinct(Column(data, 3));
    var times, values := GroupRows(data, nums);
    var d := new DataExp(times, values, nums, conds);
    return Success(d);
  }
}
