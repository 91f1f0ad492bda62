/** Reassignment: `data.loc[data[col0] == account, col1] = ae` overwrites the
    AE of every row carrying the chosen account id and touches nothing else. */
module Realignment {
  import opened Table
  import opened OwnerFilter

  /** One press of the Reassign button: the account picked and the AE picked. */
  datatype Move = Move(account: AccountId, target: Owner)

  /** The effect of the reassignment on a single row. */
  function Moved(row: Row, account: AccountId, target: Owner): Row {
    if row.account == account then row.(owner := target) else row
  }

  /** The table after reassigning `account` to `target`. */
  function Reassigned(rows: seq<Row>, account: AccountId, target: Owner): (r: seq<Row>)
    ensures |r| == |rows|
  {
    if rows == [] then []
    else [Moved(rows[0], account, target)] + Reassigned(rows[1..], account, target)
  }

  lemma {:induction false} ReassignedAt(rows: seq<Row>, account: AccountId, target: Owner, i: nat)
    requires i < |rows|
    ensures Reassigned(rows, account, target)[i] == Moved(rows[i], account, target)
  {
    if i > 0 {
      ReassignedAt(rows[1..], account, target, i - 1);
    }
  }

  /** Rows carrying the account get the target AE; every other row, and the
      account id and sales of every row, stay as they were. */
  lemma {:induction false} ReassignFrame(rows: seq<Row>, account: AccountId, target: Owner)
    ensures var r := Reassigned(rows, account, target);
      && |r| == |rows|
      && forall i :: 0 <= i < |rows| ==>
           && r[i].account == rows[i].account
           && r[i].revenue == rows[i].revenue
           && (rows[i].account == account ==> r[i].owner == target)
           && (rows[i].account != account ==> r[i] == rows[i])
  {
    forall i | 0 <= i < |rows| {
      ReassignedAt(rows, account, target, i);
    }
  }

  /** Column 0 is untouched, so the account ids stay unique if they were,
      and the account picker offers the same ids afterwards. */
  lemma {:induction false} ReassignKeepsAccountIds(rows: seq<Row>, account: AccountId, target: Owner)
    ensures AccountColumn(Reassigned(rows, account, target)) == AccountColumn(rows)
    ensures NoDuplicates(AccountColumn(rows)) ==> NoDuplicates(AccountColumn(Reassigned(rows, account, target)))
    ensures AccountOptions(Reassigned(rows, account, target)) == AccountOptions(rows)
  {
    ReassignFrame(rows, account, target);
  }

  /** A target drawn from the selection keeps every row within the selection. */
  lemma {:induction false} ReassignKeepsSelection(rows: seq<Row>, selection: seq<Owner>, account: AccountId, target: Owner)
    requires OwnedWithin(rows, selection)
    requires target in selection
    ensures OwnedWithin(Reassigned(rows, account, target), selection)
  {
    ReassignFrame(rows, account, target);
  }

  /** Reassigning an account to the AE that already holds it changes nothing. */
  lemma {:induction false} ReassignToCurrentOwner(rows: seq<Row>, account: AccountId, target: Owner)
    requires forall i :: 0 <= i < |rows| && rows[i].account == account ==> rows[i].owner == target
    ensures Reassigned(rows, account, target) == rows
  {
    if rows != [] {
      ReassignToCurrentOwner(rows[1..], account, target);
    }
  }

  /** An account id that no row carries matches no row: the table is unchanged. */
  lemma {:induction false} ReassignUnknownAccount(rows: seq<Row>, account: AccountId, target: Owner)
    requires account !in AccountColumn(rows)
    ensures Reassigned(rows, account, target) == rows
  {
    ReassignToCurrentOwner(rows, account, target);
  }

  /** Pressing Reassign twice with the same choices is the same as once. */
  lemma {:induction false} ReassignIdempotent(rows: seq<Row>, account: AccountId, target: Owner)
    ensures Reassigned(Reassigned(rows, account, target), account, target)
         == Reassigned(rows, account, target)
  {
    ReassignFrame(rows, account, target);
    ReassignToCurrentOwner(Reassigned(rows, account, target), account, target);
  }

  /** The table after a series of reassignments, applied in order. */
  function ReassignedAll(rows: seq<Row>, moves: seq<Move>): (r: seq<Row>)
    ensures |r| == |rows|
    decreases |moves|
  {
    if moves == [] then rows
    else ReassignedAll(Reassigned(rows, moves[0].account, moves[0].target), moves[1..])
  }

  /** Any series of reassignments whose targets come from the selection
      keeps every row within the selection and keeps the account ids. */
  lemma {:induction false} ReassignedAllKeepsSelection(rows: seq<Row>, selection: seq<Owner>, moves: seq<Move>)
    requires OwnedWithin(rows, selection)
    requires forall k :: 0 <= k < |moves| ==> moves[k].target in selection
    ensures OwnedWithin(ReassignedAll(rows, moves), selection)
    ensures AccountColumn(ReassignedAll(rows, moves)) == AccountColumn(rows)
    decreases |moves|
  {
    if moves != [] {
      var next := Reassigned(rows, moves[0].account, moves[0].target);
      ReassignKeepsSelection(rows, selection, moves[0].account, moves[0].target);
      ReassignKeepsAccountIds(rows, moves[0].account, moves[0].target);
      ReassignedAllKeepsSelection(next, selection, moves[1..]);
    }
  }
}
