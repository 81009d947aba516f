# Triplytics in Dafny

Triplytics is an expense and profitability tracker for ride-hailing
drivers: a React client over an Express/Mongo REST API. This project models
its logic in Dafny and proves properties of that model:

- **Costs page** (`costs.dfy`). This is the fuel and trip cost calculator. It
  keeps a fuel-purchase ledger and a list of trip rows. It derives the total
  litres, the fuel cost, the ledger's average price per litre (the divisor is
  1 when no litres were bought), the litres each trip burned (its distance
  over the mileage of the first vehicle with the trip's vehicle name), the
  remaining fuel, and the total expense after fuel deduction. It also has the
  add, remove-by-id and edit-by-id handlers of both lists.
- **Vehicles page** (`vehicles.dfy`): the same add, remove and edit pattern
  over a list of vehicle rows.
- **Cost-details page** (`cost_details.dfy`): a quick form and a detailed
  trip form. Each add appends a validated entry and clears its form. The
  page also keeps a total-spent figure.
- **Add-expense dialog** (`add_expense_modal.dfy`). It works in single or
  multiple mode. Its rows are objects that are edited in place. Submitting it
  calls save and then close.
- **Client data context** (`app_data.dfy`): the profile and expense list
  kept in step with the server's replies.
- **Expense controller** (`expenses.dfy`). The database is a map from id to
  record. The controller handles create (validation and defaults), update
  (ownership check and field merge) and delete (ownership check). It also
  returns the requester's records.
- **Auth middleware** (`auth_middleware.dfy`). It checks the `Authorization`
  header against the "Bearer" scheme of section 2.1 of RFC 6750. The header
  must start with `Bearer` and a space, matched case-sensitively. The token
  is the second space-separated piece of the header, so `"Bearer  tok"` (two
  spaces) passes the check with the empty token. Token
  verification is an oracle passed in as a parameter.

Shared pieces:
- `common.dfy` holds `Option` and `Input`. `Input` is the raw text of a
  numeric form field: `Blank` for the empty text, `Typed(v)` for anything
  typed in, including "0".
- `sums.dfy` holds the left fold behind every `reduce` total.
- `id_lists.dfy` holds the map-where-id-matches and filter-out-id list
  transitions.

Ids come from the clock in the source, so they are parameters here and need
not be unique. Every update and remove contract therefore speaks of every
row that carries the id. A field named `type` in the source is called
`kind` here, because `type` is a Dafny keyword. Money and litres are `real`.

Points of the cost summary's formulas that the model keeps as written:
- The total expense ADDS each trip's `others` to its amount and then
  subtracts the trip's fuel cost (Costs.jsx:97). With a mileage of 20, 10
  litres bought at 100 and one 100-long trip earning 500 with 50 of other
  costs, the formula gives 50 (`Costs.WorkedExample`).
- The cost page has no input for a trip's `others`, and the route in
  App.jsx:52 renders it without a vehicle list. In the running app every
  trip's `others` is therefore the blank text of the row template (Costs.jsx:19, 59), which reads as 0, and every trip burns 0 litres, so
  the remaining fuel is all the fuel bought (`Costs.NoVehiclesKeepFuel`).
  The model keeps both as inputs so that the formulas are modelled in full.
- The average price divides by 1 when no litres were bought. With
  non-negative litres this still gives 0 (`Costs.ZeroVolumeMeansZeroPrice`).
- There is no daily, weekly, monthly or annual windowing. Remaining fuel is
  the whole ledger less all trips.

## Model

| member | source | states |
|---|---|---|
| `IdLists.MapWhere` | frontend/src/pages/Costs.jsx:29-31 | the list keeps its length; each element whose id matches is transformed, and every other element is kept as it was |
| `IdLists.RemoveWhere` | frontend/src/pages/Costs.jsx:39 | what remains is drawn from the list and carries no matching id; every element without the id survives |
| `IdLists.MapWhereAbsent` | frontend/src/pages/Vehicles.jsx:12-14 | updating an id that no element carries leaves the list unchanged |
| `IdLists.RemoveWhereConcat` | frontend/src/pages/Vehicles.jsx:27 | the filter distributes over concatenation, so the survivors keep their relative order |
| `IdLists.RemoveWhereCount` | frontend/src/pages/Vehicles.jsx:27 | exactly as many elements disappear as carry the id |
| `IdLists.RemoveWhereAbsent` | frontend/src/pages/Vehicles.jsx:27 | removing an id that no element carries leaves the list unchanged |
| `IdLists.RemoveWhereIdempotent` | frontend/src/pages/Costs.jsx:66 | removing the same id twice has the effect of removing it once |
| `IdLists.RemoveWhereAppend` | frontend/src/pages/Costs.jsx:35-39 | after appending a row, removal keeps the row at the end exactly when the row does not carry the id |
| `Sums.SumOfAppend` | frontend/src/pages/Costs.jsx:70 | the reduce total of a list with one more element grows by exactly that element's term |
| `Sums.SumOfConcat` | frontend/src/pages/Costs.jsx:70 | the total of a concatenation is the sum of the totals of its parts |
| `Sums.SumOfCons` | frontend/src/pages/Costs.jsx:70 | prepending an element adds exactly its term |
| `Sums.SumOfPermutation` | frontend/src/pages/Costs.jsx:70-74 | a reduce total does not depend on the order of the list |
| `Sums.SumOfAdd` | frontend/src/pages/Costs.jsx:97 | a total of per-element sums splits into the two totals |
| `Sums.SumOfDeduct` | frontend/src/pages/Costs.jsx:96-97 | a total of terms of the form f - c*g is total(f) - c*total(g) |
| `Sums.SumOfScaled` | frontend/src/pages/Costs.jsx:71-74 | a total of terms c*g is c times the total of g |
| `Sums.SumOfNonNegative` | frontend/src/pages/Costs.jsx:70 | a total of non-negative terms is non-negative, and it is zero exactly when every term is zero |
| `Vehicles.ApplyEdit` | frontend/src/pages/Vehicles.jsx:13 | the named field takes the new value; the id and every other field keep theirs |
| `Vehicles.VehiclesPage.constructor` | frontend/src/pages/Vehicles.jsx:6-8 | the page starts with exactly one blank vehicle |
| `Vehicles.VehiclesPage.HandleChange` | frontend/src/pages/Vehicles.jsx:11-15 | same length; rows with the id get the edit and other rows are unchanged; an absent id changes nothing |
| `Vehicles.VehiclesPage.AddVehicle` | frontend/src/pages/Vehicles.jsx:18-23 | exactly one blank vehicle is appended after the untouched existing rows |
| `Vehicles.VehiclesPage.RemoveVehicle` | frontend/src/pages/Vehicles.jsx:26-28 | every row with the id goes and the rest keep their order; the count drops by the number of matching rows; an absent id changes nothing |
| `Costs.ApplyFuelEdit` | frontend/src/pages/Costs.jsx:30 | the named field of a fuel row takes the value; the others keep theirs |
| `Costs.ApplyExpenseEdit` | frontend/src/pages/Costs.jsx:45 | the named field of a trip row takes the value; the others keep theirs |
| `Costs.TotalFuel` | frontend/src/pages/Costs.jsx:70 | a definition without a contract of its own (the litres summed, blanks as 0); its properties are in `Costs.FuelTotalsOrderFree`, `Costs.BlankFuelKeepsTotals`, `Costs.ZeroVolumeMeansZeroPrice` and `Costs.AvgFuelPriceRecoversCost` |
| `Costs.FuelCost` | frontend/src/pages/Costs.jsx:71-74 | a definition without a contract of its own (litres times price summed, blanks as 0); its properties are in `Costs.FuelTotalsOrderFree`, `Costs.BlankFuelKeepsTotals`, `Costs.ZeroVolumeMeansZeroPrice` and `Costs.UniformPriceIsAverage` |
| `Costs.AvgFuelPrice` | frontend/src/pages/Costs.jsx:93-95 | with no litres bought, the divisor is 1, so the average is the fuel cost itself |
| `Costs.AvgFuelPriceRecoversCost` | frontend/src/pages/Costs.jsx:93-95 | when some litres were bought, the average price times the litres gives back the fuel cost |
| `Costs.ZeroVolumeMeansZeroPrice` | frontend/src/pages/Costs.jsx:70-74 | with non-negative litres summing to 0, the fuel cost and the average price are both 0 |
| `Costs.UniformPriceIsAverage` | frontend/src/pages/Costs.jsx:93-95 | if every purchase has the same price and some litres were bought, the average is that price |
| `Costs.FuelTotalsOrderFree` | frontend/src/pages/Costs.jsx:70-74 | reordering the fuel ledger changes neither total litres, nor fuel cost, nor average price |
| `Costs.FindVehicle` | frontend/src/pages/Costs.jsx:78 | if a vehicle is found, it has the trip's name; none is found exactly when no vehicle has that name |
| `Costs.FindVehicleIsFirst` | frontend/src/pages/Costs.jsx:78 | the vehicle found is the first one with the name |
| `Costs.Estimable` | frontend/src/pages/Costs.jsx:79 | a predicate without a contract: a vehicle of the trip's name exists, the distance is filled in, and the mileage is filled in and not zero (the source's guard plus the zero check of the corrected estimate); it is used by `Costs.TripFuelUsed` and `Costs.NothingEstimableKeepsFuel` |
| `Costs.TripFuelUsed` | frontend/src/pages/Costs.jsx:78-82 | a trip whose fuel cannot be estimated burns 0 (no vehicle of that name, blank distance, blank or zero mileage) |
| `Costs.TripFuelUsedRecoversDistance` | frontend/src/pages/Costs.jsx:80 | an estimated trip's litres times its vehicle's mileage give back its distance |
| `Costs.UnknownVehicleBurnsNothing` | frontend/src/pages/Costs.jsx:78-79 | a trip whose vehicle name matches no vehicle burns nothing |
| `Costs.TripFuelUsedAsWritten` | frontend/src/pages/Costs.jsx:78-82 | a definition without a contract of its own: the estimate with only the truthiness guard, `None` standing for the division by zero; its properties are in `Costs.GuardedEstimateAgrees` and `Costs.ZeroMileageDividesByZero` |
| `Costs.TotalFuelUsed` | frontend/src/pages/Costs.jsx:77-83 | a definition without a contract of its own (the trips' estimates summed); its properties are in `Costs.RemainingFuelAtMostBought`, `Costs.NothingEstimableKeepsFuel`, `Costs.TripsOrderFree` and `Costs.BlankExpenseKeepsTotals` |
| `Costs.TotalExpense` | frontend/src/pages/Costs.jsx:86-98 | a definition without a contract of its own (each trip's amount plus others less its fuel at the average price, summed); its properties are in `Costs.TotalExpenseDecomposes`, `Costs.UnestimableTripCostsItsAmount`, `Costs.TripsOrderFree` and `Costs.NothingEstimableKeepsFuel` |
| `Costs.Summarize` | frontend/src/pages/Costs.jsx:111-114 | total rides equals the number of trip rows; remaining fuel equals litres bought less litres burned (its properties are the next four rows) |
| `Costs.NothingEstimableKeepsFuel` | frontend/src/pages/Costs.jsx:76-83 | when no trip's fuel can be estimated, no fuel is burned: the remaining fuel is all the fuel bought, and the total expense is the amounts plus the other costs |
| `Costs.NoVehiclesKeepFuel` | frontend/src/App.jsx:52 | with no vehicle list, as the app's route renders the page, the remaining fuel is all the fuel bought and the total expense is the amounts plus the other costs |
| `Costs.RemainingFuelAtMostBought` | frontend/src/pages/Costs.jsx:76-83 | with no negative distance and no negative mileage, the fuel burned is non-negative and the remaining fuel never exceeds the fuel bought |
| `Costs.TripsOrderFree` | frontend/src/pages/Costs.jsx:76-98 | reordering the trip rows changes no figure of the summary |
| `Costs.TripExpensesDecompose` | frontend/src/pages/Costs.jsx:86-98 | at any fuel price, the per-trip terms sum to the amounts plus the other costs, less the total fuel burned at that price |
| `Costs.TotalExpenseDecomposes` | frontend/src/pages/Costs.jsx:86-98 | the total expense equals the amounts plus the other costs, less the average price times the total fuel burned |
| `Costs.UnestimableTripCostsItsAmount` | frontend/src/pages/Costs.jsx:88-97 | a trip whose fuel cannot be estimated contributes exactly its amount plus its other costs |
| `Costs.BlankFuelKeepsTotals` | frontend/src/pages/Costs.jsx:35 | appending a blank fuel row changes neither total litres, nor fuel cost, nor average price |
| `Costs.BlankExpenseKeepsTotals` | frontend/src/pages/Costs.jsx:49-63 | appending a blank trip row adds one ride and changes neither the fuel burned nor the total expense |
| `Costs.GuardedEstimateAgrees` | frontend/src/pages/Costs.jsx:79-80 | where the as-written estimate is defined it equals the guarded one; it is undefined exactly when the vehicle's mileage was typed as 0 |
| `Costs.ZeroMileageDividesByZero` | frontend/src/pages/Costs.jsx:79-80 | a vehicle whose mileage is "0" passes the source's guard and makes it divide by zero; the guarded estimate gives 0 |
| `Costs.WorkedExample` | frontend/src/pages/Costs.jsx:70-114 | mileage 20, 10 L at 100, and one 100-long trip earning 500 with 50 of other costs give 1 ride, 10 L, 1000 cost, 5 L left and a total expense of 50 |
| `Costs.UnlistedVehicleExample` | frontend/src/pages/Costs.jsx:78-97 | a trip in a vehicle not on the list burns nothing and costs its amount plus its other costs (320) |
| `Costs.CostsPage.constructor` | frontend/src/pages/Costs.jsx:7-22 | the page opens with one blank fuel row and one blank trip row dated today |
| `Costs.CostsPage.HandleFuelChange` | frontend/src/pages/Costs.jsx:28-32 | same length; every fuel row with the id gets the edit, other rows are unchanged, and the trip rows are untouched |
| `Costs.CostsPage.AddFuelEntry` | frontend/src/pages/Costs.jsx:34-36 | one blank fuel row is appended; total litres and fuel cost do not move |
| `Costs.CostsPage.RemoveFuelEntry` | frontend/src/pages/Costs.jsx:38-40 | the fuel rows become the order-keeping filter of the rows without the id |
| `Costs.CostsPage.HandleExpenseChange` | frontend/src/pages/Costs.jsx:43-47 | same length; every trip row with the id gets the edit, other rows are unchanged, and the fuel rows are untouched |
| `Costs.CostsPage.AddExpenseEntry` | frontend/src/pages/Costs.jsx:49-63 | one blank trip row dated today is appended; one more ride, with the same total expense and the same remaining fuel |
| `Costs.CostsPage.RemoveExpenseEntry` | frontend/src/pages/Costs.jsx:65-67 | the trip rows become the order-keeping filter of the rows without the id |
| `CostDetails.Category` | frontend/src/pages/CostDetails.jsx:36 | quick entries are labelled "Quick" and detailed entries "Detailed", and only those |
| `CostDetails.ApplyQuickEdit` | frontend/src/pages/CostDetails.jsx:24-26 | the named quick-form field takes the value; the others keep theirs |
| `CostDetails.ApplyDetailedEdit` | frontend/src/pages/CostDetails.jsx:28-30 | the named detailed-form field takes the value; the others keep theirs |
| `CostDetails.QuickAddable` | frontend/src/pages/CostDetails.jsx:33 | a predicate without a contract: the type is non-empty and the amount is filled in ("0" included); `CostDetails.CostDetailsPage.HandleQuickAdd` is tied to it |
| `CostDetails.DetailedTotal` | frontend/src/pages/CostDetails.jsx:42-45 | an all-blank form totals 0; with non-negative parts the total is at least each part |
| `CostDetails.DetailedAddable` | frontend/src/pages/CostDetails.jsx:47 | a predicate without a contract: the trip name is non-empty and the total is not 0; `CostDetails.CostDetailsPage.HandleDetailedAdd` is tied to it |
| `CostDetails.Spent` | frontend/src/pages/CostDetails.jsx:69 | a definition without a contract of its own (the falsy chain `Number(e.amount) \|\| e.total \|\| 0`); its meaning is stated by `CostDetails.SpentIsAmountOrTotal` and `CostDetails.DetailedEntrySpendsItsTotal` |
| `CostDetails.TotalSpent` | frontend/src/pages/CostDetails.jsx:69 | a definition without a contract of its own (the terms summed); its properties are in `CostDetails.TotalSpentAppend` and the add handlers' ensures |
| `CostDetails.SpentIsAmountOrTotal` | frontend/src/pages/CostDetails.jsx:69 | the amount-else-total-else-0 chain comes to a quick entry's amount and a detailed entry's total |
| `CostDetails.DetailedEntrySpendsItsTotal` | frontend/src/pages/CostDetails.jsx:47-56 | in a well-formed ledger every detailed entry adds its form's total, which is not 0 |
| `CostDetails.TotalSpentAppend` | frontend/src/pages/CostDetails.jsx:69 | appending an entry raises total spent by exactly that entry's term |
| `CostDetails.Step` | frontend/src/pages/CostDetails.jsx:24-66 | an event never changes the existing entries, and it appends at most one |
| `CostDetails.LedgerOnlyGrows` | frontend/src/pages/CostDetails.jsx:32-66 | over any run of events, existing entries stay and the count grows by exactly the number of adds that passed their guard |
| `CostDetails.CostDetailsPage.constructor` | frontend/src/pages/CostDetails.jsx:5-22 | both forms start blank and the ledger starts empty |
| `CostDetails.CostDetailsPage.HandleQuickChange` | frontend/src/pages/CostDetails.jsx:24-26 | only the named quick-form field changes |
| `CostDetails.CostDetailsPage.HandleDetailedChange` | frontend/src/pages/CostDetails.jsx:28-30 | only the named detailed-form field changes |
| `CostDetails.CostDetailsPage.HandleQuickAdd` | frontend/src/pages/CostDetails.jsx:32-39 | with an empty type or amount nothing changes; otherwise one "Quick" entry carrying the form is appended, the form resets, and total spent rises by the amount; the ledger stays well formed |
| `CostDetails.CostDetailsPage.HandleDetailedAdd` | frontend/src/pages/CostDetails.jsx:41-66 | with an empty trip name or a zero total nothing changes; otherwise one "Detailed" entry with the computed total is appended, the form resets, and total spent rises by the total |
| `AddExpenseModal.ApplyRideEdit` | frontend/src/components/AddExpenseModal.jsx:14 | the named ride field takes the value; the others keep theirs |
| `AddExpenseModal.RideRow.constructor` | frontend/src/components/AddExpenseModal.jsx:22 | a new row object is blank |
| `AddExpenseModal.RideRow.Set` | frontend/src/components/AddExpenseModal.jsx:17 | assigning into a row object changes that field of that row in place |
| `AddExpenseModal.RowValues` | frontend/src/components/AddExpenseModal.jsx:29 | the contents of the rows, one per row object, in order |
| `AddExpenseModal.ExpenseModal.constructor` | frontend/src/components/AddExpenseModal.jsx:5-7 | the dialog opens in single mode, with a blank form and one fresh blank row |
| `AddExpenseModal.ExpenseModal.SetEntryType` | frontend/src/components/AddExpenseModal.jsx:51 | the mode buttons change only the mode |
| `AddExpenseModal.ExpenseModal.HandleChange` | frontend/src/components/AddExpenseModal.jsx:11-20 | single mode edits only the single form; multiple mode edits only row `index`, in place, and keeps the row count and every other row |
| `AddExpenseModal.ExpenseModal.AddMoreRows` | frontend/src/components/AddExpenseModal.jsx:22 | exactly one fresh blank row is appended and the existing rows are untouched |
| `AddExpenseModal.ExpenseModal.HandleSubmit` | frontend/src/components/AddExpenseModal.jsx:24-32 | it saves `[rideData]` in single mode or every row in order in multiple mode, then closes |
| `Expenses.ValidBody` | backend/controllers/expenseController.js:22 | a predicate without a contract: the title is truthy and the amount is neither missing nor null, so 0 passes; `Expenses.ExpenseStore.AddExpense` and `AppData.AppData.AddExpense` are tied to it |
| `Expenses.OrZero` | backend/controllers/expenseController.js:33-35 | an absent figure becomes 0, and a present one is kept |
| `Expenses.DateOr` | backend/controllers/expenseController.js:30 | a given non-zero date is kept; otherwise the current time is used |
| `Expenses.CreateRecord` | backend/controllers/expenseController.js:26-36 | the new record is owned by the requester and takes the body's title, amount and vehicle; its date is the body's when truthy, else the current time; each extra figure is the body's or 0 |
| `Expenses.Merge` | backend/controllers/expenseController.js:53 | every field the patch carries overwrites, every other field and the id stay |
| `Expenses.MergeEmpty` | backend/controllers/expenseController.js:53 | a patch carrying nothing changes nothing |
| `Expenses.MergeIdempotent` | backend/controllers/expenseController.js:53-54 | sending the same update twice has the effect of sending it once |
| `Expenses.OwnedBy` | backend/controllers/expenseController.js:8 | a record is listed exactly when it is stored and the user owns it, unchanged |
| `Expenses.DeleteOnlyTouchesOwner` | backend/controllers/expenseController.js:66-72 | an owner's delete takes exactly that record out of their listing and leaves every other user's listing as it was |
| `Expenses.UpdateWithoutOwnerKeepsListings` | backend/controllers/expenseController.js:48-56 | an update that carries no owner changes only that record in the owner's listing and no other user's listing |
| `Expenses.UpdateCanTransferOwnership` | backend/controllers/expenseController.js:53 | an update carrying another owner moves the record out of the owner's listing and into the new owner's |
| `Expenses.Saveable` | backend/controllers/expenseController.js:54 | a predicate without a contract: the merged record still has a non-empty title, the one schema check on save that is modelled; `Expenses.ExpenseStore.UpdateExpense` is tied to it |
| `Expenses.ExpenseStore.GetExpenses` | backend/controllers/expenseController.js:5-14 | 200 with exactly the requester's records |
| `Expenses.ExpenseStore.AddExpense` | backend/controllers/expenseController.js:17-43 | 400 with the message and nothing stored when the title is falsy or the amount is missing (0 passes); otherwise 201 and the created record, which carries the new id and the requester as owner, stored under that id |
| `Expenses.ExpenseStore.UpdateExpense` | backend/controllers/expenseController.js:46-61 | 404 and no change when the record is missing or not the requester's; 500 and no change when the merge leaves no title; otherwise the merged record and 200, and the record answered is the one stored under the requested id (the store keeps every record under its own id); no other record changes |
| `Expenses.ExpenseStore.DeleteExpense` | backend/controllers/expenseController.js:64-77 | 404 and no change when the record is missing or not the requester's; otherwise only that record is removed and the answer is 200 "Expense deleted" |
| `AppData.AddThenDeleteRestores` | frontend/src/context/useAppData.jsx:72 | appending a record with a new id and then deleting that id gives the list back |
| `AppData.DeleteAfterReplace` | frontend/src/context/useAppData.jsx:85 | replacing by id and then deleting that id is the same as deleting it |
| `AppData.AppData.constructor` | frontend/src/context/useAppData.jsx:8-11 | no profile, no expenses, loading, no error |
| `AppData.AppData.UpdateProfile` | frontend/src/context/useAppData.jsx:43-54 | on success the profile becomes the reply and is returned; on failure the profile stays, the error is set and null is returned |
| `AppData.AppData.AddExpense` | frontend/src/context/useAppData.jsx:60-80 | an expense without a title or an amount is refused with its error and the list unchanged (0 passes); on success the reply is appended at the end; on failure the list stays and the error is set |
| `AppData.AppData.UpdateExpense` | frontend/src/context/useAppData.jsx:82-93 | on success every entry with the `_id` becomes the reply, with the same length and other entries; on failure nothing changes but the error |
| `AppData.AppData.DeleteExpense` | frontend/src/context/useAppData.jsx:95-106 | on success every entry with the `_id` goes, the rest keep their order, and the answer is true; on failure the list stays, the error is set, and the answer is false |
| `AuthMiddleware.Split` | backend/middleware/authMiddleware.js:11 | there is always at least one piece, and no piece contains the separator |
| `AuthMiddleware.JoinSplit` | backend/middleware/authMiddleware.js:11 | joining the pieces back gives the header |
| `AuthMiddleware.SplitWithoutSeparator` | backend/middleware/authMiddleware.js:11 | text without a space is a single piece |
| `AuthMiddleware.SplitAfterWord` | backend/middleware/authMiddleware.js:11 | a word, a space and a rest split into the word followed by the rest's pieces |
| `AuthMiddleware.HasBearer` | backend/middleware/authMiddleware.js:7 | a predicate without a contract: the header is present, non-empty and starts with "Bearer " (case-sensitive); `AuthMiddleware.Authenticate` refuses exactly the headers that fail it |
| `AuthMiddleware.Token` | backend/middleware/authMiddleware.js:11 | the token is the second piece, which exists for any header with the prefix, and it contains no space |
| `AuthMiddleware.TokenAfterScheme` | backend/middleware/authMiddleware.js:11 | "Bearer <t>" gives back t for a space-free t, and anything after a further space is ignored |
| `AuthMiddleware.SecondSpaceGivesEmptyToken` | backend/middleware/authMiddleware.js:7-11 | a header of the scheme, a second space and anything else passes the scheme check, and its token is empty |
| `AuthMiddleware.Authenticate` | backend/middleware/authMiddleware.js:5-20 | a missing, empty or non-Bearer header gives "no token"; a token that does not verify gives "token failed"; a request is admitted exactly when the token verifies, as the decoded user |
| `AuthMiddleware.Protect` | backend/middleware/authMiddleware.js:4-21 | a refusal answers 401 with the reason, leaves `user` as it was and calls no next handler; an admission sets `user` to the decoded id and calls the next handler exactly once |

## Left out

- The network is not modelled: the axios instance, the `Promise.all` fetch of the profile and expenses, and the loading and error updates around that fetch. Each client action takes the server's reply as a parameter.
- localStorage, rendering, navigation, the `isOpen` early return of the dialog, the browser's `required` field checks, and the `toFixed(2)` display rounding are not modelled.
- Ids from `Date.now()` and the current date and time are parameters.
- `Number()` coercion of arbitrary text and IEEE floating point are not modelled. A numeric field is either blank or a `real`.
- `Costs.FindVehicle`: its contract says that the vehicle found has the name and that none is found exactly when no vehicle has it. That the match is the first one is stated separately in `Costs.FindVehicleIsFirst`.
- The total expense computes the average price once. The source recomputes the same value inside every step of its fold, so the two agree.
- `AddExpenseModal.ExpenseModal.HandleChange` requires a row index in multiple mode. The source's form always passes the index of a rendered row; any other index would throw.
- `AddExpenseModal.ExpenseModal.HandleSubmit` reports the save and close calls as values. The rows that are saved are snapshots, so any later in-place edit of a saved row object is not tracked.
- `Expenses.ExpenseStore.GetExpenses` returns the records as a map. The database's ordering of the list is not modelled.
- `Expenses.ExpenseStore.UpdateExpense` models only one schema validation on save: the title must not be empty. Type-cast failures of other fields, and any other database failure, are not modelled. The same holds for the 500 answers of the other handlers.
- `Expenses.ExpensePatch` cannot carry `_id`, and cannot set `amount` to null.
- The timestamps the schema adds are not modelled.
- The requester is an abstract user id. The middleware stores the decoded id itself, while the controller reads an `_id` field of it; that mismatch is not modelled.
- Token verification and its secret are a function parameter. `jwt.verify` is not part of this model.
- `AuthMiddleware.Authenticate`: the `verify` parameter is unconstrained on the empty token, which a header such as `"Bearer  tok"` produces. `jwt.verify` always rejects the empty token, so the source then answers "token failed"; the model admits the request if `verify` accepts it.
- Password hashing, the report aggregation pipelines, notifications, exports, the other controllers and the route files are not part of this model.

## Findings

| source | as written | input that shows it | evidently intended | confidence | as-written member | corrected member |
|---|---|---|---|---|---|---|
| frontend/src/pages/Costs.jsx:79-80 | a trip's fuel is estimated when its vehicle's mileage text is truthy, so a mileage typed as "0" passes the guard, and the next line divides the distance by 0 | vehicle `{name: "Swift", mileage: "0"}` and a trip in "Swift" with distance "12": the fuel used is Infinity and the remaining fuel is -Infinity. The shipped app cannot reach this, because App.jsx:52 renders the page with no vehicle list; the same guard and division are repeated at lines 89-90 for the total expense | a zero mileage, like a blank one, gives no fuel estimate (0 litres) | high, not executed | `Costs.TripFuelUsedAsWritten`, shown by `Costs.ZeroMileageDividesByZero` | `Costs.TripFuelUsed`, proved by `Costs.TripFuelUsedRecoversDistance` and `Costs.GuardedEstimateAgrees` |
