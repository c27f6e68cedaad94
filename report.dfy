/** The two output tables of the script: the balance matrix, one row per
    index into the accounts' balance series, and the spending matrix, one row
    per month and one column per category. */
module Report {
  import opened Transactions
  import opened Accounts
  import opened Classification

  /** A cell of an output table: an empty cell (None), a text, a date or an
      amount. */
  datatype Cell = Blank | Text(text: string) | Date(day: Day) | Amount(amount: int)

  /** The balance-row loop gives up after this many rows (plus one). */
  const RowCap: nat := 10000

  // ---------------------------------------------------------------------
  // Sums over dictionaries

  /** The entry of key, or 0 when there is none. */
  function Get(m: map<string, int>, key: string): int
  {
    if key in m then m[key] else 0
  }

  ghost function Pick(keys: set<string>): string
    requires keys != {}
  {
    var k :| k in keys; k
  }

  /** The sum of the entries of the given keys, in no particular order. */
  ghost function SumOver(m: map<string, int>, keys: set<string>): int
    requires keys <= m.Keys
    decreases keys
  {
    if keys == {} then 0 else var k := Pick(keys); m[k] + SumOver(m, keys - {k})
  }

  /** Any key can be taken out first: the sum does not depend on the order. */
  lemma {:induction false} SumOverRemove(m: map<string, int>, keys: set<string>, k: string)
    requires keys <= m.Keys && k in keys
    ensures SumOver(m, keys) == m[k] + SumOver(m, keys - {k})
    decreases keys
  {
    var p := Pick(keys);
    if p != k {
      SumOverRemove(m, keys - {p}, k);
      SumOverRemove(m, keys - {k}, p);
      assert keys - {p} - {k} == keys - {k} - {p};
    }
  }

  /** The sum only looks at the entries of the keys summed. */
  lemma {:induction false} SumOverAgree(m1: map<string, int>, m2: map<string, int>, keys: set<string>)
    requires keys <= m1.Keys && keys <= m2.Keys
    requires forall k :: k in keys ==> m1[k] == m2[k]
    ensures SumOver(m1, keys) == SumOver(m2, keys)
    decreases keys
  {
    if keys != {} {
      var p := Pick(keys);
      SumOverAgree(m1, m2, keys - {p});
    }
  }

  /** The sum of a dictionary's values, visiting the keys in an unspecified order. */
  method SumValues(values: map<string, int>) returns (total: int)
    ensures total == SumOver(values, values.Keys)
  {
    total := 0;
    var rest := values.Keys;
    while rest != {}
      invariant rest <= values.Keys
      invariant total + SumOver(values, rest) == SumOver(values, values.Keys)
      decreases rest
    {
      var k :| k in rest;
      SumOverRemove(values, rest, k);
      total := total + values[k];
      rest := rest - {k};
    }
  }

  // ---------------------------------------------------------------------
  // Balance rows

  /** The amount an account shows in row i: its i-th balance while it has
      one, afterwards the last one it had, and 0 if its series is empty. */
  function LastKnown(s: seq<BalanceEntry>, i: nat): int
  {
    if i < |s| then s[i].amount else if |s| > 0 then s[|s| - 1].amount else 0
  }

  /** The length of the longest series. */
  function MaxLen(series: seq<seq<BalanceEntry>>): (r: nat)
    ensures forall j :: 0 <= j < |series| ==> |series[j]| <= r
    ensures |series| > 0 ==> exists j :: 0 <= j < |series| && |series[j]| == r
    ensures |series| == 0 ==> r == 0
  {
    if series == [] then 0
    else
      var n := |series| - 1;
      var m := MaxLen(series[..n]);
      assert forall j :: 0 <= j < n ==> series[..n][j] == series[j];
      if |series[n]| > m then |series[n]| else m
  }

  /** The date cell of row i: the date of the i-th entry of the last account
      (in account order) that still has one; empty when all have run out. */
  function RowDate(series: seq<seq<BalanceEntry>>, i: nat): Cell
  {
    if series == [] then Blank
    else
      var n := |series| - 1;
      if i < |series[n]| then Date(series[n][i].date) else RowDate(series[..n], i)
  }

  function RowCells(series: seq<seq<BalanceEntry>>, i: nat): seq<Cell>
  {
    seq(|series|, j requires 0 <= j < |series| => Amount(LastKnown(series[j], i)))
  }

  /** The sum of the amounts the accounts show in row i. */
  function SumLastKnown(series: seq<seq<BalanceEntry>>, i: nat): int
  {
    if series == [] then 0
    else
      var n := |series| - 1;
      SumLastKnown(series[..n], i) + LastKnown(series[n], i)
  }

  /** Row i of the balance matrix, before reversal: date, one amount per
      account, total. */
  function BalanceRow(series: seq<seq<BalanceEntry>>, i: nat): seq<Cell>
  {
    [RowDate(series, i)] + RowCells(series, i) + [Amount(SumLastKnown(series, i))]
  }

  /** The number of accounts whose series has no entry i. */
  function CountExhausted(series: seq<seq<BalanceEntry>>, i: nat): (r: nat)
    ensures r <= |series|
  {
    if series == [] then 0
    else
      var n := |series| - 1;
      CountExhausted(series[..n], i) + (if |series[n]| <= i then 1 else 0)
  }

  /** Every account has run out exactly from index MaxLen on. */
  lemma {:induction false} AllExhausted(series: seq<seq<BalanceEntry>>, i: nat)
    ensures CountExhausted(series, i) == |series| <==> MaxLen(series) <= i
  {
    if series != [] {
      var n := |series| - 1;
      AllExhausted(series[..n], i);
      assert forall j :: 0 <= j < n ==> series[..n][j] == series[j];
    }
  }

  ghost predicate DistinctNames(names: seq<string>)
  {
    forall j, k :: 0 <= j < k < |names| ==> names[j] != names[k]
  }

  /** The `values` dictionary of the balance-row loop in row i after the
      first j accounts: keyed by account name, holding the amount of row i for
      the accounts before j and of row i - 1 for the others; an account gets
      its key with its first entry. */
  ghost predicate HoldsLastKnown(values: map<string, int>, names: seq<string>, series: seq<seq<BalanceEntry>>, i: nat, j: nat)
    requires |names| == |series|
  {
    && (forall k :: k in values ==> exists l :: 0 <= l < |series| && names[l] == k)
    && (forall l :: 0 <= l < |series| ==> (names[l] in values <==> |series[l]| > 0 && (l < j || i > 0)))
    && (forall l :: 0 <= l < |series| && names[l] in values ==>
          values[names[l]] == LastKnown(series[l], if l < j || i == 0 then i else i - 1))
  }

  /** Once every account has been visited in row i, the sum of the dictionary
      is the sum of the amounts the accounts show. */
  lemma {:induction false} TotalOfValues(values: map<string, int>, names: seq<string>, series: seq<seq<BalanceEntry>>, i: nat)
    requires |names| == |series| && DistinctNames(names)
    requires HoldsLastKnown(values, names, series, i, |series|)
    ensures SumOver(values, values.Keys) == SumLastKnown(series, i)
  {
    if series == [] {
      assert values.Keys == {};
    } else {
      var n := |series| - 1;
      var k := names[n];
      var rest := values - {k};
      HoldsWithoutLast(values, names, series, i);
      TotalOfValues(rest, names[..n], series[..n], i);
      assert SumLastKnown(series, i) == SumLastKnown(series[..n], i) + LastKnown(series[n], i);
      if k in values {
        SumOverRemove(values, values.Keys, k);
        assert values.Keys - {k} == rest.Keys;
      } else {
        assert values.Keys == rest.Keys;
      }
      SumOverAgree(values, rest, rest.Keys);
    }
  }

  /** Dropping the last account and its key keeps the dictionary's state for
      the accounts before it. */
  lemma {:induction false} HoldsWithoutLast(values: map<string, int>, names: seq<string>, series: seq<seq<BalanceEntry>>, i: nat)
    requires |names| == |series| && DistinctNames(names) && series != []
    requires HoldsLastKnown(values, names, series, i, |series|)
    ensures var n := |series| - 1;
            DistinctNames(names[..n]) &&
            HoldsLastKnown(values - {names[n]}, names[..n], series[..n], i, n) &&
            (names[n] in values <==> |series[n]| > 0) &&
            (names[n] in values ==> values[names[n]] == LastKnown(series[n], i))
  {
    var n := |series| - 1;
    var ns, ss := names[..n], series[..n];
    var k := names[n];
    var rest := values - {k};
    assert forall l :: 0 <= l < n ==> ns[l] == names[l] && ss[l] == series[l] && ns[l] != k;
    forall x | x in rest ensures exists l :: 0 <= l < n && ns[l] == x {
      var l :| 0 <= l < |series| && names[l] == x;
      assert l != n;
    }
  }

  /** rows holds the first |rows| rows of the balance matrix. */
  ghost predicate RowsUpTo(series: seq<seq<BalanceEntry>>, rows: seq<seq<Cell>>)
  {
    forall k :: 0 <= k < |rows| ==> rows[k] == BalanceRow(series, k)
  }

  /** The script's balance-row loop. Row i takes the i-th balance of every
      account by position, not by calendar date; an account that has run out
      repeats its last amount. The loop stops after the first row in which
      every account has run out, or after row RowCap. The first account must
      have a balance: the loop otherwise reads a variable that was never
      assigned. */
  method BalanceRows(names: seq<string>, series: seq<seq<BalanceEntry>>) returns (rows: seq<seq<Cell>>)
    requires |names| == |series| && DistinctNames(names)
    requires |series| > 0 ==> |series[0]| > 0
    ensures |rows| == (if MaxLen(series) < RowCap then MaxLen(series) else RowCap) + 1
    ensures forall i :: 0 <= i < |rows| ==> rows[i] == BalanceRow(series, i)
  {
    rows := [];
    var i := 0;
    var values: map<string, int> := map[];
    NothingKnownYet(names, series);
    while true
      invariant i <= MaxLen(series) && i <= RowCap
      invariant |rows| == i
      invariant RowsUpTo(series, rows)
      invariant HoldsLastKnown(values, names, series, i, 0)
      decreases RowCap - i
    {
      var exhausted;
      rows, exhausted, values := RowAt(names, series, rows, values);
      i := i + 1;
      if exhausted {
        break;
      }
      if i > RowCap {
        break;
      }
    }
  }

  /** Before row 0 the dictionary is empty, as it starts. */
  lemma {:induction false} NothingKnownYet(names: seq<string>, series: seq<seq<BalanceEntry>>)
    requires |names| == |series|
    ensures HoldsLastKnown(map[], names, series, 0, 0)
  {
  }

  /** One round of the outer loop for row i = |rows|: the inner loop over the
      accounts, then the row's total over the dictionary, appended to rows;
      exhausted says whether every account has run out at row i. */
  method RowAt(names: seq<string>, series: seq<seq<BalanceEntry>>, rows: seq<seq<Cell>>, values: map<string, int>)
    returns (rows': seq<seq<Cell>>, exhausted: bool, values': map<string, int>)
    requires |names| == |series| && DistinctNames(names)
    requires RowsUpTo(series, rows)
    requires HoldsLastKnown(values, names, series, |rows|, 0)
    ensures |rows'| == |rows| + 1
    ensures RowsUpTo(series, rows')
    ensures exhausted <==> MaxLen(series) <= |rows|
    ensures HoldsLastKnown(values', names, series, |rows| + 1, 0)
  {
    var i := |rows|;
    var row, date, noData;
    row, date, noData, values' := VisitAccounts(names, series, i, values);
    AllExhausted(series, i);
    TotalOfValues(values', names, series, i);
    var total := SumValues(values');
    var next := [date] + row + [Amount(total)];
    exhausted := noData == |names|;
    AppendRow(rows, next, series);
    rows' := rows + [next];
  }

  lemma {:induction false} AppendRow(rows: seq<seq<Cell>>, next: seq<Cell>, series: seq<seq<BalanceEntry>>)
    requires RowsUpTo(series, rows)
    requires next == BalanceRow(series, |rows|)
    ensures RowsUpTo(series, rows + [next])
  {
    var rows' := rows + [next];
    forall k | 0 <= k < |rows'| ensures rows'[k] == BalanceRow(series, k) {
      if k < |rows| {
        assert rows'[k] == rows[k];
      }
    }
  }

  /** One pass of the inner loop over the accounts for row i: records the
      i-th balance of every account that has one, collects the row's cells,
      its date and the number of accounts that have run out. */
  method VisitAccounts(names: seq<string>, series: seq<seq<BalanceEntry>>, i: nat, values: map<string, int>)
    returns (row: seq<Cell>, date: Cell, noData: nat, values': map<string, int>)
    requires |names| == |series| && DistinctNames(names)
    requires HoldsLastKnown(values, names, series, i, 0)
    ensures HoldsLastKnown(values', names, series, i, |series|)
    ensures HoldsLastKnown(values', names, series, i + 1, 0)
    ensures row == RowCells(series, i) && date == RowDate(series, i) && noData == CountExhausted(series, i)
  {
    row, date, noData, values' := [], Blank, 0, values;
    for j := 0 to |series|
      invariant HoldsLastKnown(values', names, series, i, j)
      invariant row == RowCells(series[..j], i)
      invariant date == RowDate(series[..j], i)
      invariant noData == CountExhausted(series[..j], i)
    {
      PrefixStep(series, i, j);
      VisitStep(values', names, series, i, j);
      if i < |series[j]| {
        values' := values'[names[j] := series[j][i].amount];
        date := Date(series[j][i].date);
      } else {
        noData := noData + 1;
      }
      row := row + [Amount(Get(values', names[j]))];
    }
    assert series[..|series|] == series;
    NextRow(values', names, series, i);
  }

  lemma {:induction false} PrefixStep(series: seq<seq<BalanceEntry>>, i: nat, j: nat)
    requires j < |series|
    ensures RowCells(series[..j + 1], i) == RowCells(series[..j], i) + [Amount(LastKnown(series[j], i))]
    ensures RowDate(series[..j + 1], i) == if i < |series[j]| then Date(series[j][i].date) else RowDate(series[..j], i)
    ensures CountExhausted(series[..j + 1], i) == CountExhausted(series[..j], i) + (if |series[j]| <= i then 1 else 0)
  {
    assert series[..j + 1][..j] == series[..j] && series[..j + 1][j] == series[j];
  }

  lemma {:induction false} VisitStep(values: map<string, int>, names: seq<string>, series: seq<seq<BalanceEntry>>, i: nat, j: nat)
    requires |names| == |series| && DistinctNames(names) && j < |series|
    requires HoldsLastKnown(values, names, series, i, j)
    ensures var v := if i < |series[j]| then values[names[j] := series[j][i].amount] else values;
            HoldsLastKnown(v, names, series, i, j + 1) && Get(v, names[j]) == LastKnown(series[j], i)
  {
    if i < |series[j]| {
      VisitLive(values, names, series, i, j);
    } else {
      VisitExhausted(values, names, series, i, j);
    }
  }

  /** Account j has an entry in row i: its key now holds that entry. */
  lemma {:induction false} VisitLive(values: map<string, int>, names: seq<string>, series: seq<seq<BalanceEntry>>, i: nat, j: nat)
    requires |names| == |series| && DistinctNames(names) && j < |series| && i < |series[j]|
    requires HoldsLastKnown(values, names, series, i, j)
    ensures HoldsLastKnown(values[names[j] := series[j][i].amount], names, series, i, j + 1)
  {
    var v := values[names[j] := series[j][i].amount];
    forall k | k in v ensures exists l :: 0 <= l < |series| && names[l] == k {
      if k != names[j] {
        assert k in values;
      }
    }
    forall l | 0 <= l < |series| && l != j
      ensures (names[l] in v <==> names[l] in values) && (names[l] in v ==> v[names[l]] == values[names[l]])
    {
      assert names[l] != names[j];
    }
  }

  /** Account j has run out in row i: the dictionary keeps its last amount. */
  lemma {:induction false} VisitExhausted(values: map<string, int>, names: seq<string>, series: seq<seq<BalanceEntry>>, i: nat, j: nat)
    requires |names| == |series| && j < |series| && |series[j]| <= i
    requires HoldsLastKnown(values, names, series, i, j)
    ensures HoldsLastKnown(values, names, series, i, j + 1) && Get(values, names[j]) == LastKnown(series[j], i)
  {
    if |series[j]| > 0 {
      assert LastKnown(series[j], i) == LastKnown(series[j], i - 1);
    }
  }

  lemma {:induction false} NextRow(values: map<string, int>, names: seq<string>, series: seq<seq<BalanceEntry>>, i: nat)
    requires |names| == |series|
    requires HoldsLastKnown(values, names, series, i, |series|)
    ensures HoldsLastKnown(values, names, series, i + 1, 0)
  {
  }

  /** The row the loop adds last, when the cap is not reached: every account
      has run out, so it has no date and repeats each account's last amount. */
  lemma {:induction false} FinalRowStale(series: seq<seq<BalanceEntry>>)
    ensures var row := BalanceRow(series, MaxLen(series));
            row[0] == Blank &&
            forall j :: 0 <= j < |series| ==> row[j + 1] == Amount(if |series[j]| > 0 then series[j][|series[j]| - 1].amount else 0)
  {
    NoDateBeyond(series, MaxLen(series));
  }

  lemma {:induction false} NoDateBeyond(series: seq<seq<BalanceEntry>>, i: nat)
    requires forall j :: 0 <= j < |series| ==> |series[j]| <= i
    ensures RowDate(series, i) == Blank
  {
    if series != [] {
      var n := |series| - 1;
      assert forall j :: 0 <= j < n ==> series[..n][j] == series[j];
      NoDateBeyond(series[..n], i);
    }
  }

  /** In a row where some account still has an entry, the date is that of the
      last such account. */
  lemma {:induction false} RowDateOfLastLive(series: seq<seq<BalanceEntry>>, i: nat, j: nat)
    requires j < |series| && i < |series[j]|
    requires forall l :: j < l < |series| ==> |series[l]| <= i
    ensures RowDate(series, i) == Date(series[j][i].date)
  {
    var n := |series| - 1;
    if j < n {
      assert forall l :: j < l < n ==> series[..n][l] == series[l];
      RowDateOfLastLive(series[..n], i, j);
    }
  }

  /** The total of a row is the sum of its account cells. */
  lemma {:induction false} RowTotalIsSumOfCells(series: seq<seq<BalanceEntry>>, i: nat)
    ensures var row := BalanceRow(series, i);
            row[|row| - 1] == Amount(SumCells(row[1..|row| - 1]))
  {
    var row := BalanceRow(series, i);
    assert row[1..|row| - 1] == RowCells(series, i);
    CellsSum(series, i);
  }

  function SumCells(cells: seq<Cell>): int
  {
    if cells == [] then 0
    else
      var n := |cells| - 1;
      SumCells(cells[..n]) + (if cells[n].Amount? then cells[n].amount else 0)
  }

  lemma {:induction false} CellsSum(series: seq<seq<BalanceEntry>>, i: nat)
    ensures SumCells(RowCells(series, i)) == SumLastKnown(series, i)
  {
    if series != [] {
      var n := |series| - 1;
      CellsSum(series[..n], i);
      assert RowCells(series, i)[..n] == RowCells(series[..n], i);
    }
  }

  /** A list in reverse order. */
  function Reverse<T>(s: seq<T>): (r: seq<T>)
    ensures |r| == |s|
    ensures forall k :: 0 <= k < |s| ==> r[k] == s[|s| - 1 - k]
  {
    if s == [] then [] else Reverse(s[1..]) + [s[0]]
  }

  /** The header row of the balance matrix. */
  function BalanceHeader(names: seq<string>): (h: seq<Cell>)
    ensures |h| == |names| + 2 && h[0] == Text("date") && h[|h| - 1] == Text("total")
    ensures forall j :: 0 <= j < |names| ==> h[j + 1] == Text(names[j])
  {
    [Text("date")] + seq(|names|, j requires 0 <= j < |names| => Text(names[j])) + [Text("total")]
  }

  /** The header, then the rows oldest first. Every fifth row of this matrix
      is also collected in a list that is never used; that list is not part
      of the model. */
  function BalanceMatrix(names: seq<string>, rows: seq<seq<Cell>>): (m: seq<seq<Cell>>)
    ensures |m| == |rows| + 1 && m[0] == BalanceHeader(names)
    ensures forall k :: 0 < k <= |rows| ==> m[k] == rows[|rows| - k]
  {
    [BalanceHeader(names)] + Reverse(rows)
  }

  /** The balance matrix of the given accounts: the header, then the rows
      the loop produces, oldest (highest index) first. */
  ghost predicate IsBalanceMatrix(names: seq<string>, series: seq<seq<BalanceEntry>>, matrix: seq<seq<Cell>>)
  {
    && |matrix| == (if MaxLen(series) < RowCap then MaxLen(series) else RowCap) + 2
    && matrix[0] == BalanceHeader(names)
    && forall k :: 0 < k < |matrix| ==> matrix[k] == BalanceRow(series, |matrix| - 1 - k)
  }

  lemma {:induction false} MatrixOfRows(names: seq<string>, series: seq<seq<BalanceEntry>>, rows: seq<seq<Cell>>)
    requires |rows| == (if MaxLen(series) < RowCap then MaxLen(series) else RowCap) + 1
    requires forall i :: 0 <= i < |rows| ==> rows[i] == BalanceRow(series, i)
    ensures IsBalanceMatrix(names, series, BalanceMatrix(names, rows))
  {
    var m := BalanceMatrix(names, rows);
    forall k | 0 < k < |m| ensures m[k] == BalanceRow(series, |m| - 1 - k) {
      assert m[k] == rows[|rows| - k];
    }
  }

  /** The script's balance part: the rows, reversed, under the header. */
  method BalanceTable(names: seq<string>, series: seq<seq<BalanceEntry>>) returns (matrix: seq<seq<Cell>>)
    requires |names| == |series| && DistinctNames(names)
    requires |series| > 0 ==> |series[0]| > 0
    ensures IsBalanceMatrix(names, series, matrix)
  {
    var rows := BalanceRows(names, series);
    matrix := BalanceMatrix(names, rows);
    MatrixOfRows(names, series, rows);
  }

  // ---------------------------------------------------------------------
  // Spending matrix

  /** Two dictionaries added key by key. */
  function Combined(total: map<string, int>, classified: map<string, int>): (r: map<string, int>)
    ensures r.Keys == total.Keys + classified.Keys
    ensures forall k :: k in r ==> r[k] == Get(total, k) + Get(classified, k)
  {
    map k | k in total.Keys + classified.Keys :: Get(total, k) + Get(classified, k)
  }

  /** Adds each entry of a month's dictionary to the running totals, visiting
      the keys in an unspecified order. */
  method AddAll(total: map<string, int>, classified: map<string, int>) returns (r: map<string, int>)
    ensures r == Combined(total, classified)
  {
    r := total;
    var rest := classified.Keys;
    while rest != {}
      invariant rest <= classified.Keys
      invariant r.Keys == total.Keys + (classified.Keys - rest)
      invariant forall k :: k in r ==> r[k] == Get(total, k) + (if k !in rest then Get(classified, k) else 0)
      decreases rest
    {
      var k :| k in rest;
      r := AddToDict(r, k, classified[k]);
      rest := rest - {k};
    }
  }

  /** The running total over the months' dictionaries. */
  function Totals(spendings: seq<map<string, int>>): map<string, int>
  {
    if spendings == [] then map[]
    else
      var n := |spendings| - 1;
      Combined(Totals(spendings[..n]), spendings[n])
  }

  function SumOfKey(spendings: seq<map<string, int>>, key: string): int
  {
    if spendings == [] then 0
    else
      var n := |spendings| - 1;
      SumOfKey(spendings[..n], key) + Get(spendings[n], key)
  }

  /** A category has a total when it occurs in some month, and the total is
      the sum of its monthly amounts. */
  lemma {:induction false} TotalsMeaning(spendings: seq<map<string, int>>)
    ensures forall k :: k in Totals(spendings) <==> exists i :: 0 <= i < |spendings| && k in spendings[i]
    ensures forall k :: Get(Totals(spendings), k) == SumOfKey(spendings, k)
  {
    TotalsKeys(spendings);
    forall k ensures Get(Totals(spendings), k) == SumOfKey(spendings, k) {
      TotalsValue(spendings, k);
    }
  }

  lemma {:induction false} TotalsKeys(spendings: seq<map<string, int>>)
    ensures forall k :: k in Totals(spendings) <==> exists i :: 0 <= i < |spendings| && k in spendings[i]
  {
    if spendings != [] {
      var n := |spendings| - 1;
      TotalsKeys(spendings[..n]);
      forall k ensures k in Totals(spendings) <==> exists i :: 0 <= i < |spendings| && k in spendings[i] {
        if k in Totals(spendings[..n]) {
          var i :| 0 <= i < n && k in spendings[..n][i];
          assert spendings[..n][i] == spendings[i];
        }
        if exists i :: 0 <= i < |spendings| && k in spendings[i] {
          var i :| 0 <= i < |spendings| && k in spendings[i];
          if i < n {
            assert spendings[..n][i] == spendings[i];
          }
        }
      }
    }
  }

  lemma {:induction false} TotalsValue(spendings: seq<map<string, int>>, k: string)
    ensures Get(Totals(spendings), k) == SumOfKey(spendings, k)
  {
    if spendings != [] {
      var n := |spendings| - 1;
      TotalsValue(spendings[..n], k);
    }
  }

  ghost predicate AscendingBy(total: map<string, int>, targets: seq<string>)
  {
    (forall c :: 0 <= c < |targets| ==> targets[c] in total) &&
    forall c, d :: 0 <= c < d < |targets| ==> total[targets[c]] <= total[targets[d]]
  }

  ghost predicate Distinct(targets: seq<string>)
  {
    forall c, d :: 0 <= c < d < |targets| ==> targets[c] != targets[d]
  }

  lemma {:induction false} MinExists(total: map<string, int>, keys: set<string>) returns (k: string)
    requires keys != {} && keys <= total.Keys
    ensures k in keys && forall x :: x in keys ==> total[k] <= total[x]
    decreases keys
  {
    var p := Pick(keys);
    if keys == {p} {
      k := p;
    } else {
      var m := MinExists(total, keys - {p});
      k := if total[p] < total[m] then p else m;
    }
  }

  /** The categories ordered by ascending total. Ties come out in dictionary
      order, which is unspecified, so any order among them is allowed. */
  method OrderByTotal(total: map<string, int>) returns (targets: seq<string>)
    ensures Distinct(targets) && AscendingBy(total, targets)
    ensures forall k :: k in total <==> k in targets
  {
    targets := [];
    var rest := total.Keys;
    while rest != {}
      invariant rest <= total.Keys
      invariant forall k :: k in total <==> k in rest || k in targets
      invariant forall c :: 0 <= c < |targets| ==> targets[c] !in rest
      invariant Distinct(targets) && AscendingBy(total, targets)
      invariant forall c, k :: 0 <= c < |targets| && k in rest ==> total[targets[c]] <= total[k]
      decreases rest
    {
      ghost var m := MinExists(total, rest);
      var k :| k in rest && forall x :: x in rest ==> total[k] <= total[x];
      targets := targets + [k];
      rest := rest - {k};
    }
  }

  /** The spending matrix: a header of the ordered categories, then for every
      month its start date and each category's amount, 0 when the month has
      none. */
  function SpendingMatrix(months: seq<Day>, spendings: seq<map<string, int>>, targets: seq<string>): (m: seq<seq<Cell>>)
    requires |spendings| < |months| || spendings == []
    ensures |m| == |spendings| + 1
    ensures m[0] == [Blank] + seq(|targets|, c requires 0 <= c < |targets| => Text(targets[c]))
    ensures forall i :: 0 < i <= |spendings| ==> |m[i]| == |targets| + 1 && m[i][0] == Date(months[i])
    ensures forall i, c :: 0 < i <= |spendings| && 0 < c <= |targets| ==> m[i][c] == Amount(Get(spendings[i - 1], targets[c - 1]))
  {
    [[Blank] + seq(|targets|, c requires 0 <= c < |targets| => Text(targets[c]))] +
    seq(|spendings|, i requires 0 <= i < |spendings| =>
      [Date(months[i + 1])] + seq(|targets|, c requires 0 <= c < |targets| => Amount(Get(spendings[i], targets[c]))))
  }

  /** The number of months: one fewer than the boundaries. */
  function Periods(months: seq<Day>): nat
  {
    if |months| == 0 then 0 else |months| - 1
  }

  /** The sum of category key over the first n months. */
  ghost function PeriodTotal(rules: seq<Rule>, all: seq<Transaction>, months: seq<Day>, n: nat, key: string): int
    requires n <= Periods(months)
  {
    if n == 0 then 0
    else PeriodTotal(rules, all, months, n - 1, key) + SumLabelled(rules, InPeriodOnly(months[n], months[n - 1], all), key)
  }

  /** Some transaction of some month is classified as key. */
  ghost predicate OccursIn(rules: seq<Rule>, all: seq<Transaction>, months: seq<Day>, key: string)
  {
    exists i, t :: 0 <= i < |months| - 1 && t in InPeriodOnly(months[i + 1], months[i], all) && Classified(rules, t.counterparty) == key
  }

  /** The month totals read back from the running dictionary are the sums of
      the category over the months so far. */
  lemma {:induction false} SumOfKeyIsPeriodTotal(rules: seq<Rule>, all: seq<Transaction>, months: seq<Day>,
                                                 spendings: seq<map<string, int>>, key: string)
    requires |spendings| <= Periods(months)
    requires forall j :: 0 <= j < |spendings| ==> spendings[j] == Tally(rules, InPeriodOnly(months[j + 1], months[j], all))
    ensures SumOfKey(spendings, key) == PeriodTotal(rules, all, months, |spendings|, key)
  {
    if spendings != [] {
      var n := |spendings| - 1;
      assert forall j :: 0 <= j < n ==> spendings[..n][j] == spendings[j];
      SumOfKeyIsPeriodTotal(rules, all, months, spendings[..n], key);
      TallyGet(rules, InPeriodOnly(months[n + 1], months[n], all), key);
    }
  }

  /** A category is in some month's dictionary exactly when it occurs. */
  lemma {:induction false} InSomeMonth(rules: seq<Rule>, all: seq<Transaction>, months: seq<Day>,
                                       spendings: seq<map<string, int>>, key: string)
    requires |spendings| == Periods(months)
    requires forall j :: 0 <= j < |spendings| ==> spendings[j] == Tally(rules, InPeriodOnly(months[j + 1], months[j], all))
    ensures (exists i :: 0 <= i < |spendings| && key in spendings[i]) <==> OccursIn(rules, all, months, key)
  {
    if exists i :: 0 <= i < |spendings| && key in spendings[i] {
      var i :| 0 <= i < |spendings| && key in spendings[i];
      TallyMeaning(rules, InPeriodOnly(months[i + 1], months[i], all));
    }
    if OccursIn(rules, all, months, key) {
      var i, t :| 0 <= i < |months| - 1 && t in InPeriodOnly(months[i + 1], months[i], all) && Classified(rules, t.counterparty) == key;
      TallyMeaning(rules, InPeriodOnly(months[i + 1], months[i], all));
      assert key in spendings[i];
    }
  }

  /** The month loop: each month's dictionary, and the running totals. */
  method MonthlySpendings(rules: seq<Rule>, all: seq<Transaction>, months: seq<Day>)
    returns (spendings: seq<map<string, int>>, total: map<string, int>)
    ensures |spendings| == Periods(months)
    ensures forall j :: 0 <= j < |spendings| ==> spendings[j] == Tally(rules, InPeriodOnly(months[j + 1], months[j], all))
    ensures total == Totals(spendings)
  {
    spendings, total := [], map[];
    for i := 0 to Periods(months)
      invariant |spendings| == i
      invariant forall j :: 0 <= j < i ==> spendings[j] == Tally(rules, InPeriodOnly(months[j + 1], months[j], all))
      invariant total == Totals(spendings)
    {
      var classified := ClassifyPeriod(rules, all, months[i + 1], months[i]);
      assert (spendings + [classified])[..i] == spendings;
      total := AddAll(total, classified);
      spendings := spendings + [classified];
    }
  }

  /** The spending table of the given transactions: the categories that
      occur in some month, each once, ordered by ascending total over all
      months; a header row of the categories, then for every month its start
      date and each category's sum in that month. */
  ghost predicate IsSpendingTable(rules: seq<Rule>, all: seq<Transaction>, months: seq<Day>,
                                  targets: seq<string>, matrix: seq<seq<Cell>>)
  {
    && Distinct(targets)
    && (forall k :: k in targets <==> OccursIn(rules, all, months, k))
    && (forall c, d :: 0 <= c < d < |targets| ==>
          PeriodTotal(rules, all, months, Periods(months), targets[c]) <= PeriodTotal(rules, all, months, Periods(months), targets[d]))
    && |matrix| == Periods(months) + 1
    && matrix[0] == [Blank] + seq(|targets|, c requires 0 <= c < |targets| => Text(targets[c]))
    && (forall i :: 0 < i < |matrix| ==> |matrix[i]| == |targets| + 1 && matrix[i][0] == Date(months[i]))
    && (forall i, c :: 0 < i < |matrix| && 0 < c < |matrix[i]| ==>
          matrix[i][c] == Amount(SumLabelled(rules, InPeriodOnly(months[i], months[i - 1], all), targets[c - 1])))
  }

  /** The script's spending part: every month classified and summed, the
      running totals kept, the categories ordered by ascending total, and the
      matrix filled with each month's sum per category. */
  method SpendingTable(rules: seq<Rule>, all: seq<Transaction>, months: seq<Day>) returns (targets: seq<string>, matrix: seq<seq<Cell>>)
    ensures IsSpendingTable(rules, all, months, targets, matrix)
  {
    var spendings, total := MonthlySpendings(rules, all, months);
    targets := OrderByTotal(total);
    matrix := SpendingMatrix(months, spendings, targets);
    TargetsFromTotals(rules, all, months, spendings, total, targets);
    SpendingCells(rules, all, months, spendings, targets, matrix);
  }

  lemma {:induction false} TargetsFromTotals(rules: seq<Rule>, all: seq<Transaction>, months: seq<Day>,
                                             spendings: seq<map<string, int>>, total: map<string, int>, targets: seq<string>)
    requires |spendings| == Periods(months)
    requires forall j :: 0 <= j < |spendings| ==> spendings[j] == Tally(rules, InPeriodOnly(months[j + 1], months[j], all))
    requires total == Totals(spendings)
    requires AscendingBy(total, targets) && forall k :: k in total <==> k in targets
    ensures forall k :: k in targets <==> OccursIn(rules, all, months, k)
    ensures forall c, d :: 0 <= c < d < |targets| ==>
              PeriodTotal(rules, all, months, Periods(months), targets[c]) <= PeriodTotal(rules, all, months, Periods(months), targets[d])
  {
    TotalsMeaning(spendings);
    forall k ensures k in targets <==> OccursIn(rules, all, months, k) {
      InSomeMonth(rules, all, months, spendings, k);
    }
    forall k ensures Get(total, k) == PeriodTotal(rules, all, months, Periods(months), k) {
      SumOfKeyIsPeriodTotal(rules, all, months, spendings, k);
    }
  }

  /** Each cell of the spending matrix is the month's sum for the category,
      read out of the month's dictionary; a category the month lacks reads 0,
      which is also its sum. */
  lemma {:induction false} SpendingCells(rules: seq<Rule>, all: seq<Transaction>, months: seq<Day>,
                                         spendings: seq<map<string, int>>, targets: seq<string>, matrix: seq<seq<Cell>>)
    requires |spendings| == Periods(months)
    requires forall j :: 0 <= j < |spendings| ==> spendings[j] == Tally(rules, InPeriodOnly(months[j + 1], months[j], all))
    requires matrix == SpendingMatrix(months, spendings, targets)
    ensures forall i, c :: 0 < i < |matrix| && 0 < c < |matrix[i]| ==>
              matrix[i][c] == Amount(SumLabelled(rules, InPeriodOnly(months[i], months[i - 1], all), targets[c - 1]))
  {
    forall i, c | 0 < i < |matrix| && 0 < c < |matrix[i]|
      ensures matrix[i][c] == Amount(SumLabelled(rules, InPeriodOnly(months[i], months[i - 1], all), targets[c - 1]))
    {
      TallyGet(rules, InPeriodOnly(months[i], months[i - 1], all), targets[c - 1]);
    }
  }
}
