# Infrastructure cost calculator — allocation engine

This project models the calculation core of a single-page calculator for recurring infrastructure costs. The user keeps a list of costs, each with a name, an amount and a currency (USD or BRL). Every amount is converted to BRL at a BRL-per-USD exchange rate, and the converted amounts are summed into a monthly total. From the total the calculator derives a cost per user, in one of two modes:

- "users" mode divides the total by a target number of users;
- "percentage" mode takes a target percentage of the total.

For each cost it also shows the fraction of the total that the cost represents.

The model has three modules:

- `Costs` (`costs.dfy`): the cost item and the three list operations. `AddCost` appends a placeholder item. `UpdateCost` replaces one field of the items with a given id. `RemoveCost` deletes the items with a given id. Each operation returns a new list, as the component does when it replaces its state.
- `Allocation` (`allocation.dfy`): conversion, the total as the same left fold the component runs (`TotalFrom`), a reference sum (`Sum`) that the fold is proved equal to, the cost per user, and the per-item share.
- `Session` (`session.dfy`): the component's state bundle, its initial values, and the headline figures derived from it.

Amounts, the exchange rate and the percentage are exact `real`s. The user target is an `int`.

## Model

| member | source | states |
|---|---|---|
| Costs.AddCost | src/App.tsx:55-60 | the result is the old list with exactly one item appended: it has the given fresh id, name "Novo Custo", amount 0 and currency BRL; a fresh id keeps ids unique |
| Costs.UpdateCost | src/App.tsx:62-64 | the length is unchanged; each item whose id matches becomes a copy with that one field replaced; every other item is kept as it was |
| Costs.Apply | src/App.tsx:63 | the copy has the edited field set to the new value and every other field of the original item |
| Costs.RemoveCost | src/App.tsx:66-68 | an item is in the result exactly when it was in the list and its id differs; the list never grows |
| Costs.RemoveCounts | src/App.tsx:67 | each item whose id differs occurs in the result exactly as often as in the list; items with the id do not occur at all |
| Costs.UpdateKeepsIds | src/App.tsx:62-64 | an edit of the name, amount or currency keeps the id sequence, and so keeps ids unique |
| Costs.UpdateAbsentIsIdentity | src/App.tsx:62-64 | an edit aimed at an id that is not in the list returns the list unchanged |
| Costs.RemoveDistributes | src/App.tsx:66-68 | removal of a concatenation is the concatenation of the removals, so the kept items stay in their original order |
| Costs.RemoveAbsentIsIdentity | src/App.tsx:66-68 | removing an id that is not in the list returns the list unchanged |
| Costs.RemoveKeepsUnique | src/App.tsx:66-68 | removal keeps ids unique |
| Costs.RemoveUndoesAdd | src/App.tsx:55-68 | after an add with a fresh id, removing that id gives back exactly the original list |
| Allocation.Convert | src/App.tsx:72-75 | a BRL amount is kept as it is; a USD amount is multiplied by the rate; non-negative amount and rate give a non-negative result |
| Allocation.ConvertByCurrency | src/App.tsx:72-75 | a BRL amount converts to itself whatever the rate; a USD amount converts to amount × rate (itself at rate 1); non-negative inputs give a non-negative result |
| Allocation.TotalFrom | src/App.tsx:71-76 | the reduce started from an accumulator returns the accumulator plus the reference sum of the converted amounts |
| Allocation.Total | src/App.tsx:70-77 | the total is the reference sum of the converted amounts |
| Allocation.TotalEmpty | src/App.tsx:70-77 | the total of an empty list is 0 for every rate |
| Allocation.SumConcat | src/App.tsx:71-76 | the sum over a concatenation is the sum of the two sums |
| Allocation.TotalAppend | src/App.tsx:70-77 | appending a cost raises the total by exactly that cost's converted amount |
| Allocation.TotalPermutation | src/App.tsx:70-77 | two lists holding the same items in any order have the same total |
| Allocation.SumNonNegative | src/App.tsx:70-77 | with non-negative amounts and rate, the total is non-negative |
| Allocation.ConvertAtMostSum | src/App.tsx:70-77 | with non-negative amounts and rate, no single converted amount exceeds the total |
| Allocation.AddKeepsTotal | src/App.tsx:55-77 | adding the placeholder item leaves the total unchanged |
| Allocation.AddRemoveKeepsTotal | src/App.tsx:55-77 | adding an item with a fresh id and removing it again restores the total |
| Allocation.RenameKeepsTotal | src/App.tsx:62-77 | renaming items never changes the total |
| Allocation.RemoveSplitsTotal | src/App.tsx:66-77 | the total after a removal plus the converted amounts of the removed items equals the total before it |
| Allocation.CostPerUser | src/App.tsx:79-85 | users mode with a positive target: the result times the target is the total; users mode with a target of 0 or less: the result is 0 and nothing is divided; percentage mode: 100 × result = total × percentage |
| Allocation.PercentageEdges | src/App.tsx:83 | a percentage of 0 gives 0 and a percentage of 100 gives exactly the total |
| Allocation.OneUserBearsTotal | src/App.tsx:81 | in users mode a single user bears the whole total |
| Allocation.ModeReadsOwnTarget | src/App.tsx:79-85 | users mode ignores the percentage and percentage mode ignores the user target |
| Allocation.Share | src/App.tsx:149-150 | when the total is positive, share × total is the converted amount; otherwise the share is 0 and nothing is divided |
| Allocation.SharePercent | src/App.tsx:352-353 | the on-screen percentage is 100 × the exported share, including the 0 of the guarded case |
| Allocation.SharesZeroWhenNoTotal | src/App.tsx:150 | when the total is 0 or less, every share and the sum of the shares are 0 |
| Allocation.SumSharesScaled | src/App.tsx:150 | against a positive total, the sum of the shares times the total is the sum of the converted amounts |
| Allocation.SharesSumToOne | src/App.tsx:148-168 | when the total is positive, the shares of all costs add up to exactly 1, the "100,00%" of the export's total row |
| Allocation.ShareBounds | src/App.tsx:149-150 | with non-negative amounts and rate, every share lies between 0 and 1 |
| Session.Initial | src/App.tsx:22-33 | the starting state has unique ids, non-negative amounts, a positive rate, a positive user target and a percentage between 0 and 100 |
| Session.TotalCostsBRL | src/App.tsx:70-77 | the headline total is the sum of the converted amounts of the state's costs, and is non-negative when the amounts and rate are |
| Session.PerUser | src/App.tsx:79-85 | in users mode with a positive target, the figure times the target is the total; with a target of 0 or less it is 0; in percentage mode, 100 × figure = total × percentage |
| Session.SetCalcMode | src/App.tsx:291 | selecting a mode replaces the mode only: costs, rate and both targets are kept |
| Session.ModeRoundTrip | src/App.tsx:291 | switching the mode away and back restores the whole state, so neither target is lost |
| Session.UsersFigureReadsUserTarget | src/App.tsx:80-81 | in users mode the figure depends only on the costs, the rate and the user target, not on the stored percentage |
| Session.PercentageFigureReadsPercentage | src/App.tsx:82-83 | in percentage mode the figure depends only on the costs, the rate and the percentage, not on the stored user target |
| Session.InitialFigures | src/App.tsx:22-33 | the starting list has unique ids and gives a total of 329.99 BRL at rate 5.50, 26.3992 at 8%, and 6.5998 over 50 users |

## Left out

- Fetching the exchange rate (src/App.tsx:35-53) is network I/O. It parses JSON and rounds with `toFixed(2)`. The rate is only an input value here.
- `isLoadingRate` and the React `useState`/`useMemo`/`useEffect` mechanics are framework plumbing.
- `formatCurrency` is a wrapper over the platform's `Intl.NumberFormat`.
- `exportToExcelNative` builds an HTML string and downloads it through the browser. Only the numbers it writes are modelled: the converted amount and share of each cost (`Convert`, `Share`), the total, and the cost per user. The string build, the `toFixed` formatting and the download are not.
- Rendering, event handlers and the `Number(e.target.value)` coercions are user interface code.
- Amounts are exact reals. IEEE-754 rounding, NaN and Infinity are not modelled, so totals and shares are exact where the component's are approximate.
- `Costs.UpdateCost`: the component accepts any field name with a value of type `any`. The model pairs each field with a value of that field's type, so an ill-typed value (a string stored as an amount, say) is not representable.
- `Costs.AddCost`: the id comes from the clock (`Date.now()`). Here it is a parameter chosen by the caller. Uniqueness is proved only when the caller supplies an id not already in the list. Two adds within the same millisecond would collide in the component; that is not modelled.
- The user target is an `int`. In the component it is any number typed into the field, including fractions.
- The component names the placeholder item "Novo Custo", and the model uses that name. The guard on the share is `total > 0`, so a negative total also gives shares of 0; the model follows the code here too.
