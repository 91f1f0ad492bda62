/** The summary charts: the number of accounts per AE (`groupby(col1).count()`)
    and the sales per AE (`groupby(col1).sum()`), each read back in the order
    of the AE selection. */
module Aggregation {
  import opened Table
  import opened OwnerFilter
  import opened Realignment

  /** The bar heights shown for one selected AE. */
  datatype AggregateRow = AggregateRow(owner: Owner, accounts: nat, sales: int)

  /** The summary as the charts compute it: either both bar series, or the
      `KeyError` raised by looking up an AE that has no group. */
  datatype Summary = Bars(rows: seq<AggregateRow>) | KeyError(key: Owner)

  /** The size of the group of `ae`: the rows whose AE is `ae`; at most one
      per row. */
  function CountFor(rows: seq<Row>, ae: Owner): (n: nat)
    ensures n <= |rows|
  {
    if rows == [] then 0
    else (if rows[0].owner == ae then 1 else 0) + CountFor(rows[1..], ae)
  }

  /** The sum of column 2 over the group of `ae`; an AE whose group is
      empty sums to zero. */
  function SumFor(rows: seq<Row>, ae: Owner): (s: int)
    ensures CountFor(rows, ae) == 0 ==> s == 0
  {
    if rows == [] then 0
    else (if rows[0].owner == ae then rows[0].revenue else 0) + SumFor(rows[1..], ae)
  }

  /** The sum of column 2 over all rows. */
  function Revenue(rows: seq<Row>): int {
    if rows == [] then 0 else rows[0].revenue + Revenue(rows[1..])
  }

  /** The count of `ae` is the number of times `ae` occurs in column 1; in
      particular `ae` has a group exactly when it occurs there. */
  lemma {:induction false} CountIsOccurrences(rows: seq<Row>, ae: Owner)
    ensures CountFor(rows, ae) == multiset(OwnerColumn(rows))[ae]
    ensures CountFor(rows, ae) > 0 <==> ae in OwnerColumn(rows)
  {
    if rows != [] {
      CountIsOccurrences(rows[1..], ae);
      OwnerColumnCons(rows);
    }
  }

  /** Count and sum are taken over exactly the rows the groupby puts in the
      group of `ae`: the rows filtered by that one AE. */
  lemma {:induction false} GroupIsFilter(rows: seq<Row>, ae: Owner)
    ensures CountFor(rows, ae) == |Filter(rows, [ae])|
    ensures SumFor(rows, ae) == Revenue(Filter(rows, [ae]))
  {
    if rows != [] {
      GroupIsFilter(rows[1..], ae);
      var head := if rows[0].owner in [ae] then [rows[0]] else [];
      RevenueAppend(head, Filter(rows[1..], [ae]));
    }
  }

  lemma {:induction false} RevenueAppend(a: seq<Row>, b: seq<Row>)
    ensures Revenue(a + b) == Revenue(a) + Revenue(b)
  {
    if a == [] {
      assert a + b == b;
    } else {
      assert (a + b)[1..] == a[1..] + b;
      RevenueAppend(a[1..], b);
    }
  }

  /** In the working subset a selected AE keeps its whole group and any
      other AE has none. */
  lemma {:induction false} FilteredGroup(rows: seq<Row>, selection: seq<Owner>, ae: Owner)
    ensures CountFor(Filter(rows, selection), ae) == if ae in selection then CountFor(rows, ae) else 0
    ensures SumFor(Filter(rows, selection), ae) == if ae in selection then SumFor(rows, ae) else 0
  {
    if rows != [] {
      FilteredGroup(rows[1..], selection, ae);
      var rest, f := Filter(rows[1..], selection), Filter(rows, selection);
      if rows[0].owner in selection {
        assert f == [rows[0]] + rest;
        assert f[0] == rows[0] && f[1..] == rest;
        assert CountFor(f, ae) == (if rows[0].owner == ae then 1 else 0) + CountFor(rest, ae);
        assert SumFor(f, ae) == (if rows[0].owner == ae then rows[0].revenue else 0) + SumFor(rest, ae);
      } else {
        assert f == rest;
        assert rows[0].owner != ae || ae !in selection;
      }
    }
  }

  /** Both bar series, one entry per selected AE in selection order, each
      recomputed from the current rows; an AE without rows gets zeros. */
  function Aggregate(subset: seq<Row>, selection: seq<Owner>): (r: seq<AggregateRow>)
    ensures |r| == |selection|
    ensures forall i :: 0 <= i < |selection| ==>
      r[i] == AggregateRow(selection[i], CountFor(subset, selection[i]), SumFor(subset, selection[i]))
  {
    if selection == [] then []
    else [AggregateRow(selection[0], CountFor(subset, selection[0]), SumFor(subset, selection[0]))]
         + Aggregate(subset, selection[1..])
  }

  /** The charts as written: the count lookup raises `KeyError` for the first
      selected AE that is not a group key of the subset; otherwise both
      series are produced. */
  function SummaryOf(subset: seq<Row>, selection: seq<Owner>): (r: Summary)
    ensures r.Bars? <==> forall ae :: ae in selection ==> ae in OwnerColumn(subset)
    ensures r.Bars? ==> r.rows == Aggregate(subset, selection)
    ensures r.KeyError? ==>
      && r.key in selection
      && r.key !in OwnerColumn(subset)
      && forall j :: 0 <= j < FirstIndex(selection, r.key) ==> selection[j] in OwnerColumn(subset)
  {
    if selection == [] then Bars([])
    else if selection[0] !in OwnerColumn(subset) then KeyError(selection[0])
    else
      match SummaryOf(subset, selection[1..])
      case Bars(tail) =>
        Bars([AggregateRow(selection[0], CountFor(subset, selection[0]), SumFor(subset, selection[0]))] + tail)
      case KeyError(key) => KeyError(key)
  }

  /** Every selected AE that occurs in the table has a group in the subset. */
  lemma SelectedOwnersHaveGroups(data: seq<Row>, selection: seq<Owner>)
    requires forall ae :: ae in selection ==> ae in OwnerOptions(data)
    ensures forall ae :: ae in selection ==> ae in OwnerColumn(Filter(data, selection))
  {
    var subset := Filter(data, selection);
    forall ae | ae in selection ensures ae in OwnerColumn(subset) {
      var i :| 0 <= i < |data| && data[i].owner == ae;
      assert data[i] in subset;
      var k :| 0 <= k < |subset| && subset[k] == data[i];
      assert OwnerColumn(subset)[k] == ae;
    }
  }

  /** Aggregating the subset over the selection gives the same bars as
      aggregating the whole table over it. */
  lemma AggregateOfFilter(data: seq<Row>, selection: seq<Owner>)
    ensures Aggregate(Filter(data, selection), selection) == Aggregate(data, selection)
  {
    var subset := Filter(data, selection);
    forall i | 0 <= i < |selection|
      ensures Aggregate(subset, selection)[i] == Aggregate(data, selection)[i]
    {
      FilteredGroup(data, selection, selection[i]);
    }
  }

  /** Right after the subset is taken, every selected AE that occurs in the
      table has its group, so the charts come out and agree with the
      aggregate over the whole table. */
  lemma SummaryAfterSelection(data: seq<Row>, selection: seq<Owner>)
    requires forall ae :: ae in selection ==> ae in OwnerOptions(data)
    ensures SummaryOf(Filter(data, selection), selection) == Bars(Aggregate(data, selection))
  {
    SelectedOwnersHaveGroups(data, selection);
    AggregateOfFilter(data, selection);
  }

  function TotalAccounts(agg: seq<AggregateRow>): int {
    if agg == [] then 0 else agg[0].accounts + TotalAccounts(agg[1..])
  }

  function TotalSales(agg: seq<AggregateRow>): int {
    if agg == [] then 0 else agg[0].sales + TotalSales(agg[1..])
  }

  /** Adding one row in front of the subset adds it to the bar of its AE,
      and to no other bar; when the selection lists each AE once, the bar
      totals grow by one account and the row's sales exactly when its AE is
      selected. */
  lemma {:induction false} AggregateCons(row: Row, rest: seq<Row>, selection: seq<Owner>)
    requires NoDuplicates(selection)
    ensures forall k :: 0 <= k < |selection| ==>
      && Aggregate([row] + rest, selection)[k].accounts
         == Aggregate(rest, selection)[k].accounts + (if row.owner == selection[k] then 1 else 0)
      && Aggregate([row] + rest, selection)[k].sales
         == Aggregate(rest, selection)[k].sales + (if row.owner == selection[k] then row.revenue else 0)
    ensures TotalAccounts(Aggregate([row] + rest, selection))
         == (if row.owner in selection then 1 else 0) + TotalAccounts(Aggregate(rest, selection))
    ensures TotalSales(Aggregate([row] + rest, selection))
         == (if row.owner in selection then row.revenue else 0) + TotalSales(Aggregate(rest, selection))
  {
    assert ([row] + rest)[1..] == rest;
    if selection != [] {
      assert NoDuplicates(selection[1..]);
      AggregateCons(row, rest, selection[1..]);
      assert row.owner in selection <==> row.owner == selection[0] || row.owner in selection[1..];
      assert row.owner == selection[0] ==> row.owner !in selection[1..];
    }
  }

  /** Conservation: when the selection lists each AE once and covers every
      row, the counts add up to the subset size and the sales to its total. */
  lemma {:induction false} Conservation(subset: seq<Row>, selection: seq<Owner>)
    requires NoDuplicates(selection)
    requires OwnedWithin(subset, selection)
    ensures TotalAccounts(Aggregate(subset, selection)) == |subset|
    ensures TotalSales(Aggregate(subset, selection)) == Revenue(subset)
  {
    if subset == [] {
      ZeroTotals(selection);
    } else {
      Conservation(subset[1..], selection);
      assert subset == [subset[0]] + subset[1..];
      AggregateCons(subset[0], subset[1..], selection);
    }
  }

  lemma {:induction false} ZeroTotals(selection: seq<Owner>)
    ensures TotalAccounts(Aggregate([], selection)) == 0
    ensures TotalSales(Aggregate([], selection)) == 0
  {
    if selection != [] {
      ZeroTotals(selection[1..]);
    }
  }

  lemma {:induction false} ReassignKeepsRevenue(rows: seq<Row>, account: AccountId, target: Owner)
    ensures Revenue(Reassigned(rows, account, target)) == Revenue(rows)
  {
    if rows != [] {
      ReassignKeepsRevenue(rows[1..], account, target);
    }
  }

  /** The total of each bar series is the same before and after any
      reassignment whose target comes from the selection. */
  lemma ReassignConservesTotals(subset: seq<Row>, selection: seq<Owner>, account: AccountId, target: Owner)
    requires NoDuplicates(selection)
    requires OwnedWithin(subset, selection)
    requires target in selection
    ensures var after := Aggregate(Reassigned(subset, account, target), selection);
      && TotalAccounts(after) == TotalAccounts(Aggregate(subset, selection))
      && TotalSales(after) == TotalSales(Aggregate(subset, selection))
  {
    ReassignKeepsSelection(subset, selection, account, target);
    Conservation(subset, selection);
    Conservation(Reassigned(subset, account, target), selection);
    ReassignKeepsRevenue(subset, account, target);
  }

  /** After any series of reassignments within the selection, the bars still
      account for every row and every unit of sales of the subset. */
  lemma {:induction false} ReassignedAllConserves(subset: seq<Row>, selection: seq<Owner>, moves: seq<Move>)
    requires NoDuplicates(selection)
    requires OwnedWithin(subset, selection)
    requires forall k :: 0 <= k < |moves| ==> moves[k].target in selection
    ensures TotalAccounts(Aggregate(ReassignedAll(subset, moves), selection)) == |subset|
    ensures TotalSales(Aggregate(ReassignedAll(subset, moves), selection)) == Revenue(subset)
  {
    ReassignedAllKeepsSelection(subset, selection, moves);
    Conservation(ReassignedAll(subset, moves), selection);
    ReassignedAllKeepsRevenue(subset, moves);
  }

  lemma {:induction false} ReassignedAllKeepsRevenue(rows: seq<Row>, moves: seq<Move>)
    ensures Revenue(ReassignedAll(rows, moves)) == Revenue(rows)
    decreases |moves|
  {
    if moves != [] {
      ReassignKeepsRevenue(rows, moves[0].account, moves[0].target);
      ReassignedAllKeepsRevenue(Reassigned(rows, moves[0].account, moves[0].target), moves[1..]);
    }
  }

  /** Moving the one row that carries an account id: its old AE loses one
      account and its sales, the target AE gains them, every other AE is
      unchanged (and nothing changes when the two AEs coincide). */
  lemma {:induction false} ReassignMovesOneAccount(rows: seq<Row>, i: nat, target: Owner, ae: Owner)
    requires i < |rows|
    requires forall j :: 0 <= j < |rows| && j != i ==> rows[j].account != rows[i].account
    ensures var after, old_ae, sales := Reassigned(rows, rows[i].account, target), rows[i].owner, rows[i].revenue;
      && CountFor(after, ae) == CountFor(rows, ae) - (if ae == old_ae then 1 else 0) + (if ae == target then 1 else 0)
      && SumFor(after, ae) == SumFor(rows, ae) - (if ae == old_ae then sales else 0) + (if ae == target then sales else 0)
  {
    var account := rows[i].account;
    if i == 0 {
      assert account !in AccountColumn(rows[1..]) by {
        forall j | 0 <= j < |rows[1..]| ensures AccountColumn(rows[1..])[j] != account {
          assert rows[1..][j] == rows[j + 1];
        }
      }
      ReassignUnknownAccount(rows[1..], account, target);
    } else {
      assert rows[0].account != account;
      forall j | 0 <= j < |rows[1..]| && j != i - 1 ensures rows[1..][j].account != rows[1..][i - 1].account {
        assert rows[1..][j] == rows[j + 1];
      }
      ReassignMovesOneAccount(rows[1..], i - 1, target, ae);
    }
  }

  /** Reassigning accounts to the AE that already holds them leaves both bar
      series as they were. */
  lemma ReassignToCurrentOwnerKeepsSummary(subset: seq<Row>, selection: seq<Owner>, account: AccountId, target: Owner)
    requires forall i :: 0 <= i < |subset| && subset[i].account == account ==> subset[i].owner == target
    ensures Aggregate(Reassigned(subset, account, target), selection) == Aggregate(subset, selection)
    ensures SummaryOf(Reassigned(subset, account, target), selection) == SummaryOf(subset, selection)
  {
    ReassignToCurrentOwner(subset, account, target);
  }

  /** The charts as written fail after a legitimate reassignment: when the
      row moved away is the only row of a selected AE, that AE is left
      without a group, so the lookup raises `KeyError` although its count
      and sales are zero. */
  lemma SummaryFailsForEmptiedOwner(rows: seq<Row>, selection: seq<Owner>, i: nat, target: Owner)
    requires i < |rows|
    requires rows[i].owner in selection
    requires target != rows[i].owner
    requires forall j :: 0 <= j < |rows| && j != i ==> rows[j].owner != rows[i].owner
    ensures var after, emptied := Reassigned(rows, rows[i].account, target), rows[i].owner;
      && SummaryOf(after, selection).KeyError?
      && CountFor(after, emptied) == 0
      && SumFor(after, emptied) == 0
      && forall k :: 0 <= k < |selection| && selection[k] == emptied ==>
           Aggregate(after, selection)[k] == AggregateRow(emptied, 0, 0)
  {
    var after, emptied := Reassigned(rows, rows[i].account, target), rows[i].owner;
    ReassignFrame(rows, rows[i].account, target);
    assert forall j :: 0 <= j < |after| ==> after[j].owner != emptied;
    assert emptied !in OwnerColumn(after) by {
      forall j | 0 <= j < |after| ensures OwnerColumn(after)[j] != emptied {
      }
    }
    CountIsOccurrences(after, emptied);
  }

  /** The smallest instance: with the table `(A1,X,100),(A2,Y,50)` and both
      AEs selected, moving A1 to Y raises for X, where the aggregate shows
      zero bars for X. */
  lemma SummaryFailsExample()
    ensures var data := [Row("A1", "X", 100), Row("A2", "Y", 50)];
      var selection := ["X", "Y"];
      var after := Reassigned(Filter(data, selection), "A1", "Y");
      && SummaryOf(after, selection) == KeyError("X")
      && Aggregate(after, selection) == [AggregateRow("X", 0, 0), AggregateRow("Y", 2, 150)]
  {
    var data := [Row("A1", "X", 100), Row("A2", "Y", 50)];
    var selection := ["X", "Y"];
    assert Filter(data, selection) == data;
    var after := Reassigned(data, "A1", "Y");
    assert after == [Row("A1", "Y", 100), Row("A2", "Y", 50)];
    assert "X" !in OwnerColumn(after);
    assert CountFor(after, "X") == 0 && SumFor(after, "X") == 0;
    assert CountFor(after, "Y") == 2 && SumFor(after, "Y") == 150;
  }
}
