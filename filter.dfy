/** The working subset: the rows whose AE (column 1) is among the AEs the
    operator selected, as pandas' `isin` boolean indexing produces it. */
module OwnerFilter {
  import opened Table

  /** Every row of `rows` belongs to an AE of `selection`. */
  predicate OwnedWithin(rows: seq<Row>, selection: seq<Owner>) {
    forall i :: 0 <= i < |rows| ==> rows[i].owner in selection
  }

  /** The rows whose AE is in `selection`, in table order. */
  function Filter(rows: seq<Row>, selection: seq<Owner>): (r: seq<Row>)
    ensures |r| <= |rows|
    ensures forall row :: row in r <==> row in rows && row.owner in selection
  {
    if rows == [] then []
    else (if rows[0].owner in selection then [rows[0]] else []) + Filter(rows[1..], selection)
  }

  /** Filtering a concatenation filters each part and keeps the parts in
      order: rows never overtake each other. */
  lemma {:induction false} FilterAppend(a: seq<Row>, b: seq<Row>, selection: seq<Owner>)
    ensures Filter(a + b, selection) == Filter(a, selection) + Filter(b, selection)
  {
    if a == [] {
      assert a + b == b;
    } else {
      assert (a + b)[1..] == a[1..] + b;
      FilterAppend(a[1..], b, selection);
    }
  }

  /** The positions, below `n`, of the rows that the filter keeps. */
  ghost function KeptPositions(rows: seq<Row>, selection: seq<Owner>, n: nat): seq<nat>
    requires n <= |rows|
  {
    if n == 0 then []
    else KeptPositions(rows, selection, n - 1) + (if rows[n - 1].owner in selection then [n - 1] else [])
  }

  /** The kept positions are increasing, lie below `n`, and are exactly
      the positions whose AE is selected. */
  lemma {:induction false} KeptPositionsExact(rows: seq<Row>, selection: seq<Owner>, n: nat)
    requires n <= |rows|
    ensures var idx := KeptPositions(rows, selection, n);
      && (forall k :: 0 <= k < |idx| ==> idx[k] < n)
      && (forall k, l :: 0 <= k < l < |idx| ==> idx[k] < idx[l])
      && (forall i :: 0 <= i < n ==> (i in idx <==> rows[i].owner in selection))
  {
    if n > 0 {
      KeptPositionsExact(rows, selection, n - 1);
    }
  }

  /** Extending the table by one row extends the subset by that row exactly
      when its AE is selected. */
  lemma FilterSnoc(rows: seq<Row>, selection: seq<Owner>, n: nat)
    requires 0 < n <= |rows|
    ensures Filter(rows[..n], selection)
         == Filter(rows[..n - 1], selection) + (if rows[n - 1].owner in selection then [rows[n - 1]] else [])
  {
    var last := rows[n - 1];
    assert rows[..n] == rows[..n - 1] + [last];
    FilterAppend(rows[..n - 1], [last], selection);
    assert [last][1..] == [];
  }

  /** The k-th row of the subset is the table row at the k-th kept position. */
  lemma {:induction false} FilterAtKeptPositions(rows: seq<Row>, selection: seq<Owner>, n: nat)
    requires n <= |rows|
    ensures var idx, r := KeptPositions(rows, selection, n), Filter(rows[..n], selection);
      && |idx| == |r|
      && (forall k :: 0 <= k < |idx| ==> idx[k] < |rows| && r[k] == rows[idx[k]])
  {
    if n > 0 {
      var idx', r' := KeptPositions(rows, selection, n - 1), Filter(rows[..n - 1], selection);
      var idx, r := KeptPositions(rows, selection, n), Filter(rows[..n], selection);
      var last := rows[n - 1];
      FilterAtKeptPositions(rows, selection, n - 1);
      FilterSnoc(rows, selection, n);
      assert r == r' + (if last.owner in selection then [last] else []);
      assert idx == idx' + (if last.owner in selection then [n - 1] else []);
      forall k | 0 <= k < |idx| ensures idx[k] < |rows| && r[k] == rows[idx[k]] {
        if k < |idx'| {
          assert idx[k] == idx'[k] && r[k] == r'[k];
        }
      }
    }
  }

  /** The subset is the subsequence of the table at exactly the positions
      whose AE is selected, taken in increasing order. */
  lemma FilterKeepsOrder(rows: seq<Row>, selection: seq<Owner>)
    ensures var idx, r := KeptPositions(rows, selection, |rows|), Filter(rows, selection);
      && |idx| == |r|
      && (forall k :: 0 <= k < |idx| ==> idx[k] < |rows| && r[k] == rows[idx[k]])
      && (forall k, l :: 0 <= k < l < |idx| ==> idx[k] < idx[l])
      && (forall i :: 0 <= i < |rows| ==> (i in idx <==> rows[i].owner in selection))
  {
    KeptPositionsExact(rows, selection, |rows|);
    FilterAtKeptPositions(rows, selection, |rows|);
    assert rows[..|rows|] == rows;
  }

  /** Filtering by the same selection twice changes nothing. */
  lemma {:induction false} FilterIdempotent(rows: seq<Row>, selection: seq<Owner>)
    ensures Filter(Filter(rows, selection), selection) == Filter(rows, selection)
  {
    if rows != [] {
      FilterIdempotent(rows[1..], selection);
      var head := if rows[0].owner in selection then [rows[0]] else [];
      FilterAppend(head, Filter(rows[1..], selection), selection);
      if head != [] {
        assert head[1..] == [];
      }
    }
  }

  /** When every row already belongs to a selected AE, the subset is the
      whole table. */
  lemma {:induction false} FilterAllSelected(rows: seq<Row>, selection: seq<Owner>)
    requires OwnedWithin(rows, selection)
    ensures Filter(rows, selection) == rows
  {
    if rows != [] {
      FilterAllSelected(rows[1..], selection);
    }
  }
}
