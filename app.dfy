/** The app's state and its one in-place mutation: the session fields set on
    upload and selection, the selected-data frame that the Reassign button
    edits row by row, and one rerun of the page that shows the (possibly
    reassigned) subset and its summary. */
module App {
  import opened Table
  import opened OwnerFilter
  import opened Realignment
  import opened Aggregation

  /** A data frame whose rows are edited in place. */
  class Frame {
    var rows: array<Row>

    constructor (init: seq<Row>)
      ensures fresh(rows) && rows[..] == init
    {
      rows := new Row[|init|](i requires 0 <= i < |init| => init[i]);
    }

    /** `.loc[col0 == account, col1] = target`: one pass over the rows,
        overwriting the AE of each row that carries the account. */
    method Reassign(account: AccountId, target: Owner)
      modifies rows
      ensures rows[..] == Reassigned(old(rows[..]), account, target)
    {
      var i := 0;
      while i < rows.Length
        invariant 0 <= i <= rows.Length
        invariant forall k :: 0 <= k < i ==> rows[k] == Moved(old(rows[k]), account, target)
        invariant forall k :: i <= k < rows.Length ==> rows[k] == old(rows[k])
      {
        if rows[i].account == account {
          rows[i] := rows[i].(owner := target);
        }
        i := i + 1;
      }
      forall k | 0 <= k < rows.Length
        ensures rows[..][k] == Reassigned(old(rows[..]), account, target)[k]
      {
        ReassignedAt(old(rows[..]), account, target, k);
      }
    }
  }

  /** What one rerun of the page shows. */
  datatype View =
    | NoSelection
    | Shown(table: seq<Row>, accounts: seq<AccountId>, summary: Summary)

  /** The Streamlit session state: the uploaded table and the AE selection. */
  class Session {
    var data: seq<Row>
    var aeSelection: seq<Owner>

    /** The selection is a set of AEs drawn from the uploaded table. */
    ghost predicate Valid()
      reads this
    {
      && NoDuplicates(aeSelection)
      && forall ae :: ae in aeSelection ==> ae in OwnerOptions(data)
    }

    /** Before any upload nothing is selected. */
    constructor ()
      ensures Valid() && data == [] && aeSelection == []
    {
      data, aeSelection := [], [];
    }

    /** An upload stores the table, offers its distinct AEs and records the
        operator's choice among them. */
    method Upload(file: seq<Row>, choice: seq<Owner>) returns (options: seq<Owner>)
      requires NoDuplicates(choice)
      requires forall ae :: ae in choice ==> ae in OwnerOptions(file)
      modifies this
      ensures Valid() && data == file && aeSelection == choice
      ensures options == OwnerOptions(file)
    {
      data := file;
      options := OwnerOptions(file);
      aeSelection := choice;
    }

    /** One rerun: with a non-empty selection, take the rows of the selected
        AEs, reassign the picked account when the button was pressed, and
        show that table with its summary; otherwise show the guidance text. */
    method Render(account: AccountId, target: Owner, pressed: bool) returns (view: View)
      requires Valid()
      requires aeSelection != [] ==> target in aeSelection
      ensures aeSelection == [] <==> view == NoSelection
      ensures view.Shown? ==>
        var subset := Filter(data, aeSelection);
        && view.table == (if pressed then Reassigned(subset, account, target) else subset)
        && view.accounts == AccountOptions(subset)
        && view.summary == SummaryOf(view.table, aeSelection)
        && OwnedWithin(view.table, aeSelection)
        && AccountColumn(view.table) == AccountColumn(subset)
        && TotalAccounts(Aggregate(view.table, aeSelection)) == |subset|
        && TotalSales(Aggregate(view.table, aeSelection)) == Revenue(subset)
      ensures view.Shown? && !pressed ==> view.summary == Bars(Aggregate(data, aeSelection))
    {
      if aeSelection == [] {
        return NoSelection;
      }
      var subset := Filter(data, aeSelection);
      var frame := new Frame(subset);
      var accounts := RealignmentInterface(frame, aeSelection, account, target, pressed);
      var table := frame.rows[..];
      var summary := DisplaySummary(frame, aeSelection);
      view := Shown(table, accounts, summary);
      ReassignKeepsSelection(subset, aeSelection, account, target);
      ReassignKeepsAccountIds(subset, account, target);
      Conservation(subset, aeSelection);
      Conservation(table, aeSelection);
      ReassignKeepsRevenue(subset, account, target);
      if !pressed {
        SummaryAfterSelection(data, aeSelection);
      }
    }
  }

  /** The reassignment widgets: the account picker lists the subset's
      distinct account ids, and a press of the button applies the move. */
  method RealignmentInterface(frame: Frame, selection: seq<Owner>, account: AccountId, target: Owner, pressed: bool)
    returns (accounts: seq<AccountId>)
    modifies frame.rows
    ensures accounts == AccountOptions(old(frame.rows[..]))
    ensures frame.rows[..] == if pressed then Reassigned(old(frame.rows[..]), account, target) else old(frame.rows[..])
  {
    accounts := AccountOptions(frame.rows[..]);
    if pressed {
      frame.Reassign(account, target);
    }
  }

  /** The two bar charts, read back in selection order. */
  method DisplaySummary(frame: Frame, selection: seq<Owner>) returns (summary: Summary)
    ensures summary == SummaryOf(frame.rows[..], selection)
    ensures summary.Bars? ==> |summary.rows| == |selection|
  {
    summary := SummaryOf(frame.rows[..], selection);
  }
}
