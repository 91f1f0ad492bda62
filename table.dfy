/** The account table: one record per uploaded CSV row, addressed by position
    (column 0 account id, column 1 AE, column 2 last-fiscal-year sales), and
    the distinct-value extraction that pandas' `unique()` performs on a column. */
module Table {

  type AccountId = string
  type Owner = string

  /** A row of the uploaded table, its three columns in their fixed order. */
  datatype Row = Row(account: AccountId, owner: Owner, revenue: int)

  predicate NoDuplicates<T(==)>(s: seq<T>) {
    forall i, j :: 0 <= i < j < |s| ==> s[i] != s[j]
  }

  /** Column 0 of the table. */
  function AccountColumn(rows: seq<Row>): (c: seq<AccountId>)
    ensures |c| == |rows|
    ensures forall i :: 0 <= i < |rows| ==> c[i] == rows[i].account
  {
    seq(|rows|, i requires 0 <= i < |rows| => rows[i].account)
  }

  /** Column 1 of the table. */
  function OwnerColumn(rows: seq<Row>): (c: seq<Owner>)
    ensures |c| == |rows|
    ensures forall i :: 0 <= i < |rows| ==> c[i] == rows[i].owner
  {
    seq(|rows|, i requires 0 <= i < |rows| => rows[i].owner)
  }

  lemma OwnerColumnCons(rows: seq<Row>)
    requires rows != []
    ensures OwnerColumn(rows) == [rows[0].owner] + OwnerColumn(rows[1..])
  {
  }

  /** The position of the first occurrence of `x` in `s`. */
  function FirstIndex<T(==)>(s: seq<T>, x: T): (k: nat)
    requires x in s
    ensures k < |s| && s[k] == x && x !in s[..k]
  {
    if s[0] == x then 0
    else
      var k := 1 + FirstIndex(s[1..], x);
      assert s[..k] == [s[0]] + s[1..][..k - 1];
      k
  }

  /** The distinct values of `s` in order of first appearance, as pandas'
      `Series.unique()` returns them. */
  function Unique<T(==,!new)>(s: seq<T>): (r: seq<T>)
    ensures NoDuplicates(r)
    ensures forall x :: x in r <==> x in s
    decreases |s|
  {
    if s == [] then []
    else
      var init, last := s[..|s| - 1], s[|s| - 1];
      assert s == init + [last];
      var d := Unique(init);
      if last in d then d else d + [last]
  }

  /** Appending a value that already occurs does not move any first occurrence. */
  lemma FirstIndexAppend<T>(p: seq<T>, e: T, y: T)
    requires y in p
    ensures FirstIndex(p + [e], y) == FirstIndex(p, y)
  {
    var k, k' := FirstIndex(p, y), FirstIndex(p + [e], y);
    assert (p + [e])[..k] == p[..k];
    assert (p + [e])[k] == y;
    assert p + [e] == p[..k'] + (p + [e])[k'..] by { assert k' < |p|; }
  }

  /** `Unique` lists values in the order in which they first appear. */
  lemma {:induction false} UniqueFirstAppearanceOrder<T(!new)>(s: seq<T>, i: nat, j: nat)
    requires i < j < |Unique(s)|
    ensures FirstIndex(s, Unique(s)[i]) < FirstIndex(s, Unique(s)[j])
    decreases |s|
  {
    var init, last := s[..|s| - 1], s[|s| - 1];
    assert s == init + [last];
    var d := Unique(init);
    if j < |d| {
      assert Unique(s)[i] == d[i] && Unique(s)[j] == d[j];
      UniqueFirstAppearanceOrder(init, i, j);
      FirstIndexAppend(init, last, d[i]);
      FirstIndexAppend(init, last, d[j]);
    } else {
      assert last !in d && Unique(s) == d + [last] && j == |d|;
      FirstIndexAppend(init, last, d[i]);
    }
  }

  /** The AE options offered by the multiselect: every owner in column 1,
      each exactly once. */
  function OwnerOptions(rows: seq<Row>): (r: seq<Owner>)
    ensures NoDuplicates(r)
    ensures forall o :: o in r <==> exists i :: 0 <= i < |rows| && rows[i].owner == o
  {
    var col := OwnerColumn(rows);
    assert forall o :: o in col <==> exists i :: 0 <= i < |rows| && rows[i].owner == o by {
      forall o | o in col ensures exists i :: 0 <= i < |rows| && rows[i].owner == o {
        var i :| 0 <= i < |col| && col[i] == o;
        assert rows[i].owner == o;
      }
    }
    Unique(col)
  }

  /** The account ids offered by the account selectbox: every id in
      column 0, each exactly once. */
  function AccountOptions(rows: seq<Row>): (r: seq<AccountId>)
    ensures NoDuplicates(r)
    ensures forall a :: a in r <==> exists i :: 0 <= i < |rows| && rows[i].account == a
  {
    var col := AccountColumn(rows);
    assert forall a :: a in col <==> exists i :: 0 <= i < |rows| && rows[i].account == a by {
      forall a | a in col ensures exists i :: 0 <= i < |rows| && rows[i].account == a {
        var i :| 0 <= i < |col| && col[i] == a;
        assert rows[i].account == a;
      }
    }
    Unique(col)
  }
}
