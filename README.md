# AE territory realignment — verified model of the account table core

The app loads a three-column account table (account id, AE, last-fiscal-year
sales), lets the operator select the AEs under consideration, shows the rows
of those AEs, lets the operator move one account to one of the selected AEs,
and charts the number of accounts and the sales per selected AE.

This project models that core in Dafny:

- `Table` (`table.dfy`): the row record with its three positional columns,
  and the distinct-value extraction (`unique()`) that builds the AE options
  and the account picker. Distinct values come in order of first appearance.
- `OwnerFilter` (`filter.dfy`): the working subset (`isin` on column 1). It
  holds exactly the rows of the selected AEs, and those rows stay in table
  order.
- `Realignment` (`realign.dfy`): the reassignment (`.loc[...] = ae`) as a
  function on row sequences. Lemmas cover its frame, selection closure,
  idempotence, the no-op on an unknown id, and series of reassignments.
- `Aggregation` (`aggregate.dfy`): the grouped count and sum, read back in
  selection order. There are two versions: the as-written lookup that
  raises `KeyError`, and the total aggregate. Lemmas prove conservation and
  show exactly how one move shifts the bars.
- `App` (`app.dfy`): the imperative layer. `Frame` holds the selected rows in
  an array and `Frame.Reassign` edits them in place with a loop.
  `Session` holds the uploaded table and the AE selection. `Session.Render`
  is one rerun of the page.

Where the intended behaviour and the code differ, the model follows the code:

- Reassigning an account id that no row carries matches no row. The table is
  unchanged and no error is raised (`Realignment.ReassignUnknownAccount`).
- The code never checks the target AE. The AE selectbox only offers the
  selected AEs, so that guarantee is a `requires` of `Session.Render`.
- A selected AE with no rows makes the chart lookup raise `KeyError`. The
  app's own directions (main.py:17) promise that the summary stats update as
  changes are made, which a zero bar does and a crash does not. Both are
  modelled; see "## Findings".

## Model

| member | source | states |
|---|---|---|
| `Table.Unique` | main.py:25 | the result has no duplicates and holds exactly the values of the column |
| `Table.UniqueFirstAppearanceOrder` | main.py:25-27 | distinct values are listed in the order of their first occurrence in the column |
| `Table.OwnerOptions` | main.py:25-27 | the multiselect options hold each AE of column 1 exactly once, and nothing else |
| `Table.AccountOptions` | main.py:47 | the account picker holds each account id of column 0 exactly once, and nothing else |
| `OwnerFilter.Filter` | main.py:31 | a row is in the subset iff it is in the table and its AE is selected; the subset is no longer than the table |
| `OwnerFilter.FilterAppend` | main.py:31 | filtering a concatenation is the concatenation of the filtered parts, so rows never overtake each other |
| `OwnerFilter.KeptPositionsExact` | main.py:31 | the kept positions increase, stay in range, and are exactly the positions whose AE is selected |
| `OwnerFilter.FilterSnoc` | main.py:31 | one more table row extends the subset by that row exactly when its AE is selected |
| `OwnerFilter.FilterAtKeptPositions` | main.py:31 | the k-th subset row is the table row at the k-th kept position |
| `OwnerFilter.FilterKeepsOrder` | main.py:31 | the subset is the subsequence of the table at exactly the selected positions, in increasing order |
| `OwnerFilter.FilterIdempotent` | main.py:31 | filtering the subset again by the same selection changes nothing |
| `OwnerFilter.FilterAllSelected` | main.py:31 | when every row's AE is selected the subset is the whole table |
| `Realignment.Reassigned` | main.py:57 | reassignment keeps the number of rows |
| `Realignment.ReassignedAt` | main.py:57 | row i after reassignment is row i with its AE overwritten exactly when its account id matches |
| `Realignment.ReassignFrame` | main.py:57 | matching rows get the target AE; all other rows, and the id and sales of every row, are unchanged |
| `Realignment.ReassignKeepsAccountIds` | main.py:47-57 | column 0 is untouched, so account ids stay unique and the account picker is unchanged |
| `Realignment.ReassignKeepsSelection` | main.py:53-57 | with a target from the selection, every row stays owned by a selected AE |
| `Realignment.ReassignToCurrentOwner` | main.py:57 | reassigning an account to the AE that already holds it leaves the table unchanged |
| `Realignment.ReassignUnknownAccount` | main.py:57 | an account id no row carries leaves the table unchanged |
| `Realignment.ReassignIdempotent` | main.py:57 | applying the same reassignment twice equals applying it once |
| `Realignment.ReassignedAll` | main.py:57 | a series of reassignments keeps the number of rows |
| `Realignment.ReassignedAllKeepsSelection` | main.py:31-57 | any series of reassignments with targets from the selection keeps every row within the selection and keeps column 0 |
| `Aggregation.CountFor` | main.py:92-93 | the count for an AE is at most one per row; with `CountIsOccurrences` and `GroupIsFilter` it is the size of exactly that AE's group, and 0 for an AE without rows, where the source's lookup raises instead |
| `Aggregation.SumFor` | main.py:102-103 | an AE whose group is empty sums to 0, where the source's lookup raises instead; with `GroupIsFilter` the sum is the sales of exactly that AE's group |
| `Aggregation.CountIsOccurrences` | main.py:92 | an AE's count is its number of occurrences in column 1, and it is positive iff the AE is a group key |
| `Aggregation.GroupIsFilter` | main.py:92-102 | count and sum for an AE range over exactly the rows whose AE it is |
| `Aggregation.RevenueAppend` | main.py:102 | total sales of a concatenation is the sum of the parts' totals |
| `Aggregation.FilteredGroup` | main.py:31-102 | in the subset a selected AE keeps its full count and sum, and an unselected AE has none |
| `Aggregation.Aggregate` | main.py:92-103 | one entry per selected AE, in selection order, with that AE's count and sum recomputed from the current rows |
| `Aggregation.SummaryOf` | main.py:92-103 | the charts are produced iff every selected AE is a group key, and they then equal the aggregate; otherwise `KeyError` names the first selected AE without a group |
| `Aggregation.SelectedOwnersHaveGroups` | main.py:25-31 | every selected AE that occurs in the table is a group key of the subset |
| `Aggregation.AggregateOfFilter` | main.py:31-103 | the bars over the subset equal the bars over the whole table for the same selection |
| `Aggregation.SummaryAfterSelection` | main.py:25-103 | right after selecting AEs of the table, the charts come out and equal the aggregate over the whole table |
| `Aggregation.AggregateCons` | main.py:92-102 | a new row adds one account and its sales to the bar of its own AE and leaves every other bar unchanged; with a duplicate-free selection the bar totals grow by one account and the row's sales exactly when its AE is selected |
| `Aggregation.ZeroTotals` | main.py:92-102 | an empty subset yields zero totals |
| `Aggregation.Conservation` | main.py:31-93 | with a duplicate-free selection covering every row, counts sum to the subset size and sales to its total |
| `Aggregation.ReassignKeepsRevenue` | main.py:57 | reassignment does not change total sales |
| `Aggregation.ReassignConservesTotals` | main.py:53-103 | a reassignment within the selection keeps both bar totals |
| `Aggregation.ReassignedAllKeepsRevenue` | main.py:57 | a series of reassignments does not change total sales |
| `Aggregation.ReassignedAllConserves` | main.py:31-103 | after any series of reassignments within the selection, the bars still total the subset size and its sales |
| `Aggregation.ReassignMovesOneAccount` | main.py:57-103 | with unique ids, moving an account takes one account and its sales from its old AE, gives them to the target, and leaves every other AE unchanged |
| `Aggregation.ReassignToCurrentOwnerKeepsSummary` | main.py:57-103 | reassigning to the current AE leaves the aggregate and the charts unchanged |
| `Aggregation.SummaryFailsForEmptiedOwner` | main.py:57-103 | for any table, moving a selected AE's only row to another AE makes the chart lookup raise `KeyError`, while that AE's count and sales are 0 and its aggregate bar is zero |
| `Aggregation.SummaryFailsExample` | main.py:93 | on the table `(A1,X,100),(A2,Y,50)` with both AEs selected, moving A1 to Y raises for X, where the aggregate gives `(X,0,0)` and `(Y,2,150)` |
| `App.Frame.constructor` | main.py:31 | the frame's array holds the given rows |
| `App.Frame.Reassign` | main.py:57 | the array afterwards equals the reassignment of its old contents |
| `App.Session.constructor` | main.py:29 | before any upload the table and the selection are empty |
| `App.Session.Upload` | main.py:23-27 | stores the table and the selection, offers the distinct AEs, and establishes that the selection is drawn from them |
| `App.Session.Render` | main.py:29-38 | no selection shows the guidance text; otherwise shows the subset as reassigned, the account picker's ids and its summary, stays within the selection, keeps ids, and conserves both totals |
| `App.RealignmentInterface` | main.py:42-60 | offers the subset's distinct account ids and applies the reassignment only when the button is pressed |
| `App.DisplaySummary` | main.py:88-103 | the charts shown are the as-written summary of the frame's current rows, one bar per selected AE |

## Left out

- Streamlit widgets and layout are not modelled, nor the rerun trigger `update_charts`. Their outputs (the uploaded rows, the multiselect choice, the picked account and AE, the button press) are parameters.
- CSV parsing (`pd.read_csv`) is left out. Input is already a sequence of three-field rows.
- Column types: sales are integers, so float sums and the `round(yval, 2)` bar labels are not modelled. Account ids are assumed never missing, which is what `count()` needs in order to count every row.
- Chart drawing and bar labels are left out. `DisplaySummary` yields the bar heights only.
- Excel export and the base64 download link are file I/O, so they are left out.
- Persistence across reruns is not modelled. `Render` reassigns the subset that is shown in that rerun. Whether that edit of the boolean-indexed copy ever reaches `st.session_state.data` depends on pandas copy semantics and on the rerun model.
- The unused helpers `load_data`, `display_data` and `select_aes` are never called, so they are left out.
- `Realignment.Reassigned`: the function's own contract states only the length. Its pointwise meaning is in `ReassignedAt` and `ReassignFrame`.
- `Aggregation.CountFor`: the function's own contract states only the bound of one per row. That it is the size of exactly the AE's group, and zero exactly for an AE without rows, is in `CountIsOccurrences` and `GroupIsFilter`. A quantified contract on the function itself made the proofs that use it unstable.
- `Aggregation.SumFor`: the function's own contract states only that an empty group sums to zero. That it is the sales of exactly the AE's group is in `GroupIsFilter`.
- `Realignment.ReassignedAll`: the function's own contract states only the length. Its meaning is in the lemmas about series of reassignments.

## Findings

| source | as written | input that shows it | evidently intended | confidence | as-written member | corrected member |
|---|---|---|---|---|---|---|
| main.py:93 | `accounts_per_ae[ae]` (and `sales_per_ae[ae]` at main.py:103) raises `KeyError` for a selected AE that has no rows left in the subset | table `(A1,X,100),(A2,Y,50)`, selection `[X,Y]`, reassign `A1` to `Y` | a zero bar for `X` (count 0, sales 0) | medium; not executed | `Aggregation.SummaryFailsForEmptiedOwner` | `Aggregation.Aggregate` |

`Aggregation.SummaryFailsExample` is the input in the table worked out.
`Aggregation.SummaryFailsForEmptiedOwner` states the failure for all inputs
and also states the corrected behaviour: the emptied AE's bar in
`Aggregate` is zero.

The conservation and reassignment lemmas are stated on the corrected
`Aggregation.Aggregate`. `App.Session.Render` still shows the as-written
`SummaryOf`, as the page does. Its contract also states the totals of
`Aggregate`.
