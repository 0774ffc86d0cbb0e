# Stock and custody ledger of a warehouse inventory application

This project models the bookkeeping core of a single-user, Arabic-language
warehouse inventory and custody application. The application keeps four
kinds of records:

- **items**, each with an opening balance, a running `currentBalance` and an
  edit history;
- **warehouse movements**: INWARD receipts and OUTWARD issues, each with a
  `returnedQuantity` for partial reversals;
- **custody events**: HANDOVER to an employee, RETURN from one, and
  SETTLEMENT. Each event acts within one condition state (NEW, USED or SCRAP)
  and may be flagged `auditOnly`;
- **reference lists**: units, warehouses, suppliers and employees.

The React screens read the three logs to derive balances and write them back
through state setters. Here each setter is an assignment to a field of one
`Ledger.Store` object. Each screen handler becomes a method that checks,
then appends or replaces, and states its whole new state.

The modules follow the screens:

| module | file | screen |
|---|---|---|
| `Types` | types.dfy | the record types (types.ts) |
| `Text` | text.dfy | the string operations the screens use (`includes`, string `<=`, `split('T')[0]`, `toLowerCase`, digit strings, `filter`, `some`) |
| `Ledger` | ledger.dfy | the signed effect of a movement and of a custody event, per-log sums, `find`, and the `Store` |
| `InventoryAudit` | inventory_audit.dfy | physical count and reconciliation, the settlement archive |
| `CustodyManagement` | custody_management.dfy | custody hand-over and return, instant write-off, current holders |
| `BalancesView` | balances_view.dfy | per-state balances, scrap execution, search |
| `Movements` | movements.dfy | the movement recorder and its input sanitisers |
| `BasicData` | basic_data.dfy | reference lists and the delete guard |
| `Reports` | reports.dfy | date filter, item ledger, employee clearance, net consumption, archives |
| `ItemCoding` | item_coding.dfy | item creation and edit, input sanitisers |
| `App` | app.dfy | starting a new financial year |

### Three balance derivations

The source has three hand-copied balance derivations, and they differ:

- `InventoryAudit.BookBalance` skips `auditOnly` events and clamps at 0.
- `CustodyManagement.StockBalanceByState` skips nothing and does not clamp. It is 0 for an unknown item, and it seeds the opening balance from `initialState` even for a general item.
- `BalancesView.BalanceForState` skips nothing and does not clamp.

Each one is modelled separately. The lemmas in `BalancesView` show where the
three coincide and give an input on which they part.

### What the code does not guard

- **`auditOnly` is skipped in one place only.** views/InventoryAudit.tsx:51 skips audit-only custody events. The balance loops at views/CustodyManagement.tsx:84-91 and views/BalancesView.tsx:48-55 count them.
- **Returns and edits of INWARD movements.** views/Movements.tsx:188-195 checks a return only against the quantity still returnable. A return against an INWARD movement lowers `currentBalance` without checking it. Likewise views/Movements.tsx:225-231 checks an edit against the balance only for an OUTWARD increase. An INWARD decrease can take the balance below zero. `Movements.EditKeepsStock` and the OUTWARD guard of `Movements.SaveMovement` state only what the code checks.
- **Document numbers of movements.** views/InventoryAudit.tsx:209-212 refuses a document number already on a movement or custody event. `handleSaveMovement` (views/Movements.tsx:122-176) and `handleEdit` (views/Movements.tsx:215-264) accept any document number.
- **Edited quantities.** views/Movements.tsx:221-228 never checks that the new quantity is positive or at least the quantity already returned. `Movements.EditMovement` makes no such promise.

## Model

| member | source | states |
|---|---|---|
| Ledger.SumMovements | views/InventoryAudit.tsx:42-48 | the accumulating loop over the movements of an item adds +(quantity − returned) per INWARD and −(quantity − returned) per OUTWARD; it returns exactly the movement sum |
| Ledger.SumCustodies | views/InventoryAudit.tsx:50-58 | the accumulating loop over custody events of one item and state (optionally skipping audit-only ones) returns exactly the signed custody sum: HANDOVER −, RETURN +, SETTLEMENT + iff its note contains the surplus word |
| Ledger.FindItem | views/Movements.tsx:124 | `items.find`: None exactly when no item has the id; otherwise an item of the list with that id |
| Ledger.FindItemIsFirst | views/Movements.tsx:124 | the item found is the first one with that id |
| Ledger.FindMovement | views/Movements.tsx:268 | `movements.find`: None exactly when no movement has the id; otherwise a movement of the log with that id |
| Ledger.MovementSumConcat | views/InventoryAudit.tsx:42-48 | the movement sum of two logs put together is the sum of their movement sums |
| Ledger.CustodySumConcat | views/InventoryAudit.tsx:50-58 | the custody sum of two logs put together is the sum of their custody sums |
| Ledger.AuditOnlyPrefixInvisible | views/InventoryAudit.tsx:51 | audit-only events put in front of a log never change the audit screen's custody sum |
| Ledger.NoAuditOnlySkipIrrelevant | views/InventoryAudit.tsx:51 | on a log without audit-only events, skipping them or not gives the same custody sum |
| Ledger.Store.constructor | App.tsx:67-73 | a store starts with empty logs and lists, the given year list and the given selected year |
| InventoryAudit.BookBalance | views/InventoryAudit.tsx:36-61 | `getBookBalance` is max(0, raw): never below the raw derivation, and equal to it or 0 |
| InventoryAudit.GetBookBalance | views/InventoryAudit.tsx:36-61 | the seed-then-accumulate computation returns exactly the book balance |
| InventoryAudit.BookBalanceIgnoresAuditOnly | views/InventoryAudit.tsx:51 | audit-only events in front of the custody log leave every book balance unchanged |
| InventoryAudit.ApplicableStates | views/InventoryAudit.tsx:218 | a custody item is counted in NEW, USED and SCRAP, a general item in NEW only; NEW comes first |
| InventoryAudit.EntryFor | views/InventoryAudit.tsx:229-279 | a nonzero difference gives a stock movement exactly for a general item or the NEW state: INWARD iff the difference is positive, quantity \|diff\|, nothing returned, net effect = diff, balanceAfter = currentBalance + diff. Otherwise it gives a SYSTEM settlement in that state for \|diff\|, audit-only exactly in SCRAP, where balanceAfter is the physical count |
| InventoryAudit.PairEntry | views/InventoryAudit.tsx:220-227 | an (item, state) pair produces no entry exactly when it was not counted or its count equals the book balance |
| InventoryAudit.AuditNoteSign | views/InventoryAudit.tsx:241-276 | the settlement note reads as a surplus exactly when the difference was positive, provided the document number holds no "ز" |
| InventoryAudit.AuditNoteTagged | views/InventoryAudit.tsx:241-302 | every settlement note carries the tag the archive selects on |
| InventoryAudit.PostEntry | views/InventoryAudit.tsx:244-278 | posting one entry prepends a stock movement and sets the item's currentBalance, or prepends a settlement; the posted state is the plan so far plus that entry |
| InventoryAudit.CommitPair | views/InventoryAudit.tsx:220-281 | one (item, state) step posts exactly the pair's planned entry, if any |
| InventoryAudit.CommitNextState | views/InventoryAudit.tsx:220-281 | the loop body over states keeps the progress invariant: entries so far = the plan of the states seen, and the flag is set iff one was posted |
| InventoryAudit.CommitItem | views/InventoryAudit.tsx:217-283 | the loop over an item's states posts the item's planned entries and reports whether there were any |
| InventoryAudit.CommitItems | views/InventoryAudit.tsx:217-283 | the loop over the audited items posts the whole plan; hasChanges iff the plan is non-empty |
| InventoryAudit.CommitSettlement | views/InventoryAudit.tsx:208-298 | refused with no change exactly when the document number is empty or used by any movement or custody event (with that reason). Otherwise movements and custodies get the plan's entries in front, items get the stock entries' balances, and "nothing to reconcile" is reported iff the plan is empty |
| InventoryAudit.NothingToReconcileIff | views/InventoryAudit.tsx:214-297 | the plan is empty iff every audited item's counted states all agree with the book |
| InventoryAudit.ItemNothingToReconcile | views/InventoryAudit.tsx:218-227 | one item produces no entry iff each of its applicable states agrees with the book |
| InventoryAudit.ItemEntriesEmpty | views/InventoryAudit.tsx:220-227 | the entries of a list of states are empty iff each state agrees with the book |
| InventoryAudit.PlanEntriesSelected | views/InventoryAudit.tsx:214 | every planned entry concerns a selected item and carries the manual document number |
| InventoryAudit.ItemEntriesSelected | views/InventoryAudit.tsx:229-279 | every entry of a selected item carries the document number and the item's id |
| InventoryAudit.AuditNewReconciles | views/InventoryAudit.tsx:224-245 | after the NEW correction of a non-negative book balance, the book balance equals the physical count |
| InventoryAudit.AuditNewFromNegative | views/InventoryAudit.tsx:229-245 | from a negative raw balance the clamped book differs from the raw one, so the correction leaves the raw balance below the count (raw + count) |
| InventoryAudit.AuditUsedReconciles | views/InventoryAudit.tsx:266-278 | after the USED settlement of a non-negative book balance (document number without "ز"), the book balance equals the count |
| InventoryAudit.AuditScrapInvisible | views/InventoryAudit.tsx:247-264 | the SCRAP settlement is audit-only, leaves the SCRAP book balance unchanged, and so the same count would give an entry again |
| InventoryAudit.DocNumberFlipsDeficit | views/InventoryAudit.tsx:265-278 | a document number containing the surplus word turns a USED deficit note into a surplus note, so the settlement adds instead of subtracting |
| InventoryAudit.DocLinesOfDoc | views/InventoryAudit.tsx:307-308 | the lines collected for a document all carry it, and there are none iff no line does |
| InventoryAudit.AddLineKeepsGroups | views/InventoryAudit.tsx:307-344 | adding one line to the grouped dictionary keeps it the grouping of the lines seen so far |
| InventoryAudit.GroupArchive | views/InventoryAudit.tsx:300-344 | the dictionary filled line by line has a group for exactly the documents with lines, and each group is the group of that document's lines |
| InventoryAudit.GroupForSnoc | views/InventoryAudit.tsx:308-328 | a group starts with the first line's time and performer and counts 0; each line adds 1 to itemsCount, its signed quantity to totalDiff, and sets hasScrap for a SCRAP line |
| InventoryAudit.ArchiveTabsPartition | views/InventoryAudit.tsx:346-351 | the ALL tab shows every group, and the AUDIT and SCRAP tabs split the groups between them without overlap |
| InventoryAudit.FirstMovementStampFound | views/InventoryAudit.tsx:357-362 | a first movement stamp exists iff some movement carries the document number |
| InventoryAudit.ScanMovements | views/InventoryAudit.tsx:357-377 | the scan over movements returns the first matching stamp, the count of tagged lines of the document, their signed total and their detail rows |
| InventoryAudit.ScanCustodies | views/InventoryAudit.tsx:357-377 | the same for custody events, counting settlements and tagged events |
| InventoryAudit.SelectedAuditDetails | views/InventoryAudit.tsx:355-379 | none iff no document is selected or no entry carries it; otherwise the first entry's time and performer, the count and signed total of the detail lines, and one detail row per line |
| InventoryAudit.DetailRowsAgree | views/InventoryAudit.tsx:363-376 | one detail row per line, with the line's state and difference; the counted quantity is the recorded balance (0 when absent) and equals the book quantity plus the difference; the rows' differences add up to the heading's total |
| InventoryAudit.RowNamesItem | views/InventoryAudit.tsx:365 | a detail row carries a name exactly when an item has the line's id, and then that item's name and code |
| InventoryAudit.DetailsMatchArchive | views/InventoryAudit.tsx:300-379 | when the document's tagged custody events are all settlements, the detail view shows exactly the document's archive lines |
| CustodyManagement.StockBalanceByState | views/CustodyManagement.tsx:65-94 | the stock balance of an unknown item id is 0 |
| CustodyManagement.GetStockBalanceByState | views/CustodyManagement.tsx:65-94 | the seed-then-accumulate computation (audit-only included, not clamped) returns exactly the stock balance |
| CustodyManagement.SetBalanceKeepsStock | views/CustodyManagement.tsx:191 | rewriting an item's currentBalance never changes any stock balance by state |
| CustodyManagement.EmployeeBalancePrepend | views/CustodyManagement.tsx:97-102 | a new event changes the employee's holding of (item, state) by +quantity for a matching HANDOVER, −quantity for a matching RETURN or SETTLEMENT, and 0 otherwise |
| CustodyManagement.CrossStateReturnLeavesNewDebt | views/CustodyManagement.tsx:97-165 | HANDOVER NEW q then RETURN USED q leaves NEW holding q and USED holding −q; a NEW return of q is still allowed, and a USED return allows 0 |
| CustodyManagement.SaveCustody | views/CustodyManagement.tsx:132-195 | refusals, each with no change: incomplete form; unknown item (ignored); HANDOVER above the state's stock balance; NEW return above the NEW holding; other return above NEW + USED holding. When accepted, the entry carries the new balance and goes in front of the custody log; the item's balance moves by −q, 0 (SCRAP return) or +q |
| CustodyManagement.HandoverMovesStockToEmployee | views/CustodyManagement.tsx:144-192 | an accepted hand-over lowers the state's stock balance by q, keeping it ≥ 0, and raises the employee's holding by q |
| CustodyManagement.ReturnMovesStockFromEmployee | views/CustodyManagement.tsx:150-192 | an accepted return raises the state's stock balance by q and lowers the employee's holding by q |
| CustodyManagement.InstantSettle | views/CustodyManagement.tsx:197-215 | once confirmed, one SCRAP settlement for the quantity goes in front of the custody log (document SETTLE- plus the clock's last four digits); items and movements never change |
| CustodyManagement.LastFour | views/CustodyManagement.tsx:209 | `slice(-4)`: the last min(4, length) characters, a suffix of the string |
| CustodyManagement.InstantNoteNotSurplus | views/CustodyManagement.tsx:210 | the instant write-off note is not a surplus note |
| CustodyManagement.InstantSettleClears | views/CustodyManagement.tsx:197-237 | settling the shown total clears the holders' total and lowers the SCRAP holding by it, and the SCRAP stock balance too when the item exists |
| CustodyManagement.HolderTotalSumsStates | views/CustodyManagement.tsx:217-223 | the holders' total is the sum over the three states of the employee's holding |
| CustodyManagement.UnconcernedHoldsNothing | views/CustodyManagement.tsx:219-223 | a pair with no events has a total of 0 |
| CustodyManagement.HolderBalances | views/CustodyManagement.tsx:218-223 | the nested dictionary filled event by event has an entry for exactly the pairs with an event, holding HANDOVER minus everything else |
| Ledger.FindNamed | views/CustodyManagement.tsx:230 | `employees.find`: an employee with that id, or None when there is none |
| CustodyManagement.CurrentHoldersArePositive | views/CustodyManagement.tsx:225-236 | every listed row belongs to its pair and shows the pair's total, which is positive; with the filter "ALL" and an empty search, every pair with a positive total is listed |
| BalancesView.GetBalanceForState | views/BalancesView.tsx:31-58 | the seed-then-accumulate computation (audit-only included, not clamped) returns exactly the per-state balance |
| BalancesView.RowOf | views/BalancesView.tsx:60-73 | a row carries the item's id, code and name, its NEW, USED and SCRAP balances, and net = NEW + USED |
| BalancesView.DetailedBalances | views/BalancesView.tsx:29-75 | one row per item, in order, each the item's row |
| BalancesView.NetIgnoresScrap | views/BalancesView.tsx:72 | a SCRAP event changes neither NEW, USED nor net, and moves SCRAP by its effect |
| BalancesView.LastSix | views/BalancesView.tsx:90 | `slice(-6)`: the last min(6, length) characters, a suffix of the string |
| BalancesView.ExecuteScrap | views/BalancesView.tsx:77-94 | with a row being confirmed, one SYSTEM_SCRAP settlement for the shown SCRAP balance goes in front of the custody log; items and movements never change |
| BalancesView.ScrapNoteIsDeficit | views/BalancesView.tsx:91 | the scrap execution note is not a surplus note |
| BalancesView.ScrapExecutionClears | views/BalancesView.tsx:77-137 | executing the shown SCRAP balance brings it to 0 and keeps NEW, USED and net |
| BalancesView.SearchFilter | views/BalancesView.tsx:139-142 | the filtered rows are rows of the table matching the term case-insensitively on name or code, and every matching row is kept |
| BalancesView.SearchFilterCounts | views/BalancesView.tsx:139-142 | every copy of a matching row is kept and no copy of any other row |
| BalancesView.SearchFilterConcat | views/BalancesView.tsx:139-142 | the search keeps the table's order: searching a concatenation is concatenating the searches |
| BalancesView.EmptySearchKeepsAll | views/BalancesView.tsx:139-142 | an empty search keeps every row, unchanged and in order |
| BalancesView.AgreesWithBookBalance | views/BalancesView.tsx:31-58 | with no audit-only events the balances screen equals the audit screen's raw derivation, and its clamped one when non-negative |
| BalancesView.AuditOnlyDiverges | views/BalancesView.tsx:48-55 | an audit-only event moves the balances screen by its effect but leaves the audit screen's raw derivation unchanged |
| BalancesView.AgreesWithStockBalance | views/CustodyManagement.tsx:65-94 | for the first item with its id, unless it is a general item whose initialState is USED or SCRAP, the custody screen's stock balance equals the balances screen's per-state balance |
| BalancesView.StockSeedDiverges | views/CustodyManagement.tsx:71-72 | a general item whose initialState is USED or SCRAP gets its opening balance counted twice by the custody screen (once in NEW, once in that state) |
| Movements.CleanInt | views/Movements.tsx:71-74 | `cleanInt` yields digits only, never longer than its input |
| Movements.CleanIntKeepsValue | views/Movements.tsx:71-74 | stripping leading zeros first does not change the value of the digits kept |
| Movements.CleanFloat | views/Movements.tsx:76-84 | `cleanFloat` yields digits and dots only, at most one dot, and no leading 0 before a digit |
| Movements.CleanFloatFixedPoint | views/Movements.tsx:76-84 | a text of digits and at most one dot with no leading 0 before a digit comes back unchanged |
| Movements.CleanFloatIdempotent | views/Movements.tsx:76-84 | cleaning twice is cleaning once |
| Movements.SplitAtDot | views/Movements.tsx:78 | split at the first dot: the head has no dot and head + "." + tail rebuilds the input |
| Movements.FirstDotOnly | views/Movements.tsx:78-79 | keeping the first dot and joining the other parts leaves digits and dots with at most one dot |
| Movements.TrimZeros | views/Movements.tsx:80-82 | stripping leading zeros when a 0 precedes a digit keeps the shape and removes that leading 0 |
| Movements.SaveMovement | views/Movements.tsx:122-176 | refusals, each with no change: no item; zero quantity; OUTWARD above currentBalance. When accepted, the balance moves by ±q and stays ≥ 0 for OUTWARD; the price is updated only for INWARD with a positive unit price; one movement goes in front, with balanceAfter = new balance, nothing returned and one history line |
| Movements.SaveKeepsDrift | views/Movements.tsx:142-173 | a saved movement gives the item its balanceAfter and keeps every item's currentBalance − movement sum |
| Movements.RegisterReturn | views/Movements.tsx:178-213 | ignored with no movement or item. Refused unless 0 < q ≤ quantity − returned. Otherwise the balance moves by −q for INWARD and +q for OUTWARD, and that movement records the returned quantity, document, shifted balanceAfter and one history line |
| Movements.ReturnKeepsDrift | views/Movements.tsx:192-209 | a return keeps every item's currentBalance − movement sum |
| Movements.ReturnStaysWithinQuantity | views/Movements.tsx:185-198 | an accepted return strictly raises returnedQuantity and keeps it ≤ quantity |
| Movements.EditGuardExact | views/Movements.tsx:225-231 | for an OUTWARD movement of an item with a non-negative balance, the edit guard refuses exactly the edits that would take the balance below 0 (`EditKeepsStock`) |
| Movements.EditMovement | views/Movements.tsx:215-264 | ignored with no movement or item; refused when an OUTWARD increase exceeds currentBalance. Otherwise the balance moves by the signed quantity change, which never takes a non-negative balance below 0 on an OUTWARD, and the movement takes the new fields and one history line |
| Movements.EditKeepsDrift | views/Movements.tsx:230-251 | an edit keeps every item's currentBalance − movement sum |
| Movements.DeleteMovement | views/Movements.tsx:266-278 | ignored with no id or unknown movement; otherwise the item, if still there, loses the movement's net effect and exactly the movements with that id are removed |
| Movements.DeleteKeepsDrift | views/Movements.tsx:270-275 | deleting a movement keeps every item's currentBalance − movement sum |
| Movements.FilterRemovesOne | views/Movements.tsx:275 | with unique ids, filtering out one movement's id removes exactly that movement, keeping the order of the rest |
| Movements.FindMovementUnique | views/Movements.tsx:268 | with unique ids, `find` returns the movement at its own position |
| BasicData.Rename | views/BasicDataView.tsx:139 | the list keeps its length and ids; only the entries with the id take the new name |
| BasicData.RemoveNamed | views/BasicDataView.tsx:140 | no entry with the id is left, every other entry stays, nothing new appears |
| BasicData.RemoveSupplier | views/BasicDataView.tsx:231 | the same for suppliers |
| BasicData.ReplaceSupplier | views/BasicDataView.tsx:219 | the supplier with that id is replaced by the edited record, every other is kept |
| BasicData.AddEntry | views/BasicDataView.tsx:138-156 | the chosen list gets one entry at the end; every other list and log is unchanged |
| BasicData.RenameEntry | views/BasicDataView.tsx:139-157 | the chosen list is renamed at the id; every other list and log is unchanged |
| BasicData.AddSupplier | views/BasicDataView.tsx:60-71 | ignored without a name; otherwise one supplier is appended |
| BasicData.UpdateSupplier | views/BasicDataView.tsx:219 | the supplier list becomes the replaced list; nothing else changes |
| BasicData.DeleteEntity | views/BasicDataView.tsx:47-53 | refused (no dialog, no change) exactly when something references the entity; removed once confirmed; nothing otherwise |
| BasicData.ReferencedNotDeletable | views/BasicDataView.tsx:32-45 | a unit is deletable iff no item and no movement uses it; a warehouse or supplier iff no movement uses it; an employee iff no movement and no custody event names it |
| BasicData.DeleteKeepsReferencesResolved | views/BasicDataView.tsx:32-53 | a permitted delete keeps every reference of items and logs resolvable |
| BasicData.AddedEntryFound | views/BasicDataView.tsx:138 | an added entry with a fresh id is found under that id with its name |
| Reports.WiderRangeKeeps | views/ReportsView.tsx:41-46 | an entry inside a date range stays inside any wider one; an empty bound is unbounded |
| Reports.SortBy | views/ReportsView.tsx:111 | a sort yields a permutation of its input, ordered by the key (ascending or descending) |
| Reports.InsertKeepsKeyRun | views/ReportsView.tsx:111 | inserting an element puts it ahead of the elements with its key and keeps their order |
| Reports.SortByStable | views/ReportsView.tsx:111 | the sort is stable: for every key, the elements carrying it come out in the order they went in |
| Reports.SortTotal | views/ReportsView.tsx:111 | sorting does not change any total over the entries |
| Reports.SortedFilterMembers | views/ReportsView.tsx:180-186 | the sorted filtered list holds exactly the elements passing the filter |
| Reports.MovementRows | views/ReportsView.tsx:57-85 | a movement yields one row, plus a second exactly when something was returned; the first row carries its document number and full quantity |
| Reports.MovementRowsNet | views/ReportsView.tsx:63-84 | the rows of a movement net to ±(quantity − returned) |
| Reports.MovementEntriesNet | views/ReportsView.tsx:57-86 | the movement rows of an item net to its movement sum |
| Reports.CustodyRowNet | views/ReportsView.tsx:88-108 | a custody row nets to the event's effect: HANDOVER out, RETURN in, SETTLEMENT in iff surplus note |
| Reports.CustodyEntriesNet | views/ReportsView.tsx:88-109 | the custody rows of an item net to its custody sums over the three states, audit-only included |
| Reports.ReportEntries | views/ReportsView.tsx:111-115 | the ledger's entries are in ascending timestamp order, before and after the state filter |
| Reports.FilterKeepsOrder | views/ReportsView.tsx:113-115 | filtering an ordered list keeps it ordered |
| Reports.CarriedForward | views/ReportsView.tsx:121-126 | the carried-forward loop returns opening balance + net of the entries dated before the start |
| Reports.WalkEntries | views/ReportsView.tsx:151-166 | the loop over entries produces the first line followed by one line per in-range entry, the in and out totals, and the final running balance = start + net shown |
| Reports.StockLedger | views/ReportsView.tsx:49-172 | no item chosen or unknown item gives the empty report; otherwise exactly the ledger of the item's entries |
| Reports.LinesShape | views/ReportsView.tsx:154-166 | each line's balance is the previous balance + in − out, and the last line's balance is start + net of the shown entries |
| Reports.RunningBalanceChains | views/ReportsView.tsx:117-171 | each line's balance is the previous + in − out, the last line's balance is the final, and final = starting balance + totalIn − totalOut |
| Reports.CarriedPlusShown | views/ReportsView.tsx:117-156 | entries before the start plus entries from the start on make up every entry |
| Reports.CarriedForwardKeepsFinal | views/ReportsView.tsx:117-171 | with no end date, choosing a start date does not change the final balance |
| Reports.LedgerFinalMatchesLogs | views/ReportsView.tsx:49-171 | unfiltered, the final balance is opening + movement sum + custody sums of the three states |
| Reports.ClearanceRowSnoc | views/ReportsView.tsx:198-206 | one more event of the employee and item adds a HANDOVER's quantity to out, a RETURN's to in and to its state's column, leaves a settlement uncounted, and keeps net = out − in |
| Reports.UnconcernedRowIsEmpty | views/ReportsView.tsx:198 | an item with no events of the employee has an all-zero row |
| Reports.ClearanceCounts | views/ReportsView.tsx:194-207 | one loop step keeps the dictionary the summary of the events seen |
| Reports.ListedIffHanded | views/ReportsView.tsx:208 | in the summary of the events, a row has out > 0 iff its item exists and something of it was handed over |
| Reports.EmployeeClearance | views/ReportsView.tsx:189-209 | none without an employee; otherwise the employee found and a row for exactly the existing items with something handed over, each row the item's summary |
| Reports.StatesSplitClearance | views/ReportsView.tsx:199-205 | hand-overs and returns split over the three states without loss |
| Reports.ClearanceNetVersusHolding | views/ReportsView.tsx:189-209 | the employee's holding summed over the three states (`CustodyManagement.EmployeeItemBalance`) is the statement's net less what was settled, since the statement counts returns only |
| Reports.ConsumptionStep | views/ReportsView.tsx:231-250 | one loop step keeps the dictionary the report of the movements seen: counted movements add quantity and returned quantity |
| Reports.NetConsumption | views/ReportsView.tsx:220-256 | a row for exactly the items with a counted (OUTWARD, filtered) movement; totalOut = Σ quantity, totalReturns = Σ returned, netQty = their difference |
| Reports.ConsumptionMatchesStock | views/ReportsView.tsx:220-256 | unfiltered, an item's movement sum is its INWARD net less its net consumption |
| Reports.SettlementRecords | views/ReportsView.tsx:176-179 | the archive's records are exactly the tagged movements and the custody settlements |
| Reports.InventoryArchive | views/ReportsView.tsx:175-187 | the archive is newest first and holds exactly the settlement records passing the date, item and search filters |
| Reports.ReturnRecords | views/ReportsView.tsx:261-272 | every return record has a positive quantity and state NEW |
| Reports.ReturnRecordsExact | views/ReportsView.tsx:261-272 | the return records are exactly the records of movements with something returned |
| Reports.ReturnsArchive | views/ReportsView.tsx:260-284 | the returns archive is newest first and holds exactly the return records passing the item, employee, date and search filters |
| Text.DatePart | views/ReportsView.tsx:42 | `split('T')[0]`: a prefix without 'T', followed in the timestamp by 'T' when shorter |
| Text.Lower | views/BalancesView.tsx:140 | `toLowerCase` on ASCII: same length, each capital A-Z becomes its small letter and every other character is kept |
| Text.LexLeTransitive | views/ReportsView.tsx:43-44 | JavaScript string `<=` is transitive (also reflexive and total: LexLeReflexive, LexLeTotal) |
| Text.NatToString | App.tsx:182 | `String(n)`: non-empty decimal digits whose value is n, without a leading zero |
| Text.Filter | views/BasicDataView.tsx:140 | `filter` keeps exactly the elements satisfying the predicate, and nothing new |
| Text.FilterCounts | views/BasicDataView.tsx:140 | `filter` keeps every copy of a satisfying element and no copy of any other |
| Text.FilterConcat | views/BasicDataView.tsx:140 | `filter` keeps the order: filtering a concatenation is concatenating the filtered parts |
| Text.Any | views/BasicDataView.tsx:35 | `some` holds iff an element satisfies the predicate |
| ItemCoding.ValidateInt | views/ItemCoding.tsx:40-43 | `validateInt` is the value of the input's digits: a natural number, 0 when there are none |
| ItemCoding.ValidateIntRoundTrip | views/ItemCoding.tsx:40-43 | validating the decimal text of n gives back n |
| ItemCoding.ValidateIntNoDigits | views/ItemCoding.tsx:42 | an input without digits validates to 0 |
| ItemCoding.ValidateFloat | views/ItemCoding.tsx:45-53 | `validateFloat` is `cleanFloat`'s text, or "0" when that is empty: never empty, digits and at most one dot, and no leading 0 before a digit |
| ItemCoding.ValidateFloatIdempotent | views/ItemCoding.tsx:45-53 | validating twice gives the same as validating once |
| ItemCoding.ChangeLines | views/ItemCoding.tsx:83-89 | at most six change lines, and none exactly when name, code, price, shelf, box and threshold are unchanged |
| ItemCoding.SaveItem | views/ItemCoding.tsx:65-132 | refused when code, name or unit is missing, or when another item (not the one edited) has the code or the name, with no change. Otherwise an edit replaces the item with that id by the edited one, and a creation appends the new item; logs and lists never change |
| ItemCoding.NewItemSeedsOneState | views/ItemCoding.tsx:106-127 | a new item has one history line and currentBalance = openingBalance, seeded in exactly its starting state: the chosen one (NEW by default) for a custody item, NEW otherwise |
| ItemCoding.NewItemSeedsTotal | views/ItemCoding.tsx:111-116 | the three seeds of a new item add up to its opening balance |
| ItemCoding.EditKeepsIdentity | views/ItemCoding.tsx:91-103 | an edit keeps id, opening and current balance, creation data, and appends exactly one history line after the old ones |
| ItemCoding.EditNoteGeneral | views/ItemCoding.tsx:83-99 | the history line is the general-edit note exactly when no tracked field changed (at least when the name changed, it is not) |
| ItemCoding.MapItemOnlyThat | views/ItemCoding.tsx:103 | the replacement changes only items with that id |
| ItemCoding.CreateKeepsDistinct | views/ItemCoding.tsx:72-128 | creating an item keeps codes and names distinct |
| ItemCoding.EditKeepsDistinct | views/ItemCoding.tsx:72-103 | an edit keeps codes and names distinct (ids distinct) |
| ItemCoding.EditKeepsIds | views/ItemCoding.tsx:91-103 | an edit keeps ids distinct |
| App.Rollover | App.tsx:176-184 | one carried-over item per item, in order |
| App.StartNewYear | App.tsx:171-198 | an existing year is refused with no change. Otherwise the items are carried over, both logs become empty, the year is appended and selected, and units, warehouses, employees and suppliers are kept |
| App.CarriedOverKeepsItem | App.tsx:176-183 | carrying over keeps every field except openingBalance, which becomes currentBalance, and the history, which becomes one system line with the carry-forward text |
| App.RolloverFind | App.tsx:176-184 | `find` in the new year sees the same item, carried over |
| App.RolloverBookBalance | App.tsx:176-194 | with empty logs, the new year's raw book balance is the old current balance in the opening state and 0 elsewhere |
| App.RolloverKeepsAgreedBalance | App.tsx:176-194 | when the old current balance agrees with the book in the opening state, the new year opens with the same book balance |

## Left out

- I/O and the browser: printing, Excel export, toasts and alerts, modals, `setTimeout` form resets, localStorage, and the licence and login screens. Clocks (`new Date()`, `Date.now()`) and generated ids (`generateId()`) become parameters: `now`, `clock`, `id`. A `window.confirm` becomes a boolean parameter, and the price display used in edit notes becomes a function parameter.
- Prices and money: unit prices, item prices, custom prices, last purchase price and consumption value are floating point in the source. Prices are carried as exact `real` values where a handler stores them, and never used in a quantity.
- Quantities are whole numbers. The model has no `parseInt` of form text, so forms carry whole numbers, and `Math.floor` of a whole number is the identity.
- Timestamps are compared as strings. `new Date(a) - new Date(b)` in the sorts is modelled as the string order of ISO timestamps.
- The archive groups of the inventory screen are returned as a dictionary. Their newest-first order (views/InventoryAudit.tsx:352) is not modelled.
- Movement fields `status` and `auditOnly` (types.ts:132-134) are not part of the model; no core handler sets or reads them.
- `returnState` of a return record is always NEW: types.ts has no such field on a movement, so the source's `m.returnState || 'NEW'` is always NEW.
- Text of messages: the duplicate-item message (which names the name or the code) and the other toast texts are not modelled; the reason of a refusal is.
- Ledger lines: the action names (views/ReportsView.tsx:58-61, 93-94) and notes of ledger rows are not modelled. The carried-forward and opening lines are modelled with their balance.
- Reports.CustodyEntriesNet: the ledger's custody part counts every state and every audit-only entry, as the source does; it is compared with the sums that do not skip audit-only entries.
- Movements.ReturnKeepsDrift: stated for logs whose movement ids are unique; the handler itself makes no such assumption.
- Movements.EditKeepsDrift: stated for logs whose movement ids are unique.
- Movements.DeleteKeepsDrift: stated for logs whose movement ids are unique.
- Movements.FilterRemovesOne: stated for logs whose movement ids are unique.
- Movements.ReturnStaysWithinQuantity: stated for a movement whose returnedQuantity is not negative, as every handler keeps it.
- Reports.MovementRowsNet: stated for a movement whose returnedQuantity is not negative.
- Reports.MovementEntriesNet: stated for logs whose returnedQuantity values are not negative.
- Reports.LedgerFinalMatchesLogs: stated for logs whose returnedQuantity values are not negative, and for the unfiltered ledger only.
- ItemCoding.EditKeepsDistinct: stated for item lists whose ids are distinct.
- App.StartNewYear: models the store as it is after the new year is selected and its storage loaded: the carried-over items, empty logs and the same reference lists. Writing the storage keys and the user list are outside the model.
- BalancesView.ScrapOffered: the offer of a write-off is a predicate on the row (SCRAP balance above 0); the button itself is not modelled.
- Text.Lower: folds only the ASCII capitals A-Z. JavaScript's `toLowerCase` also folds the capitals of other scripts (Latin-1, Greek, Cyrillic and so on), so a search matching such letters across case is not modelled.
- CustodyManagement.HolderBalances: returns the balances as a map keyed by (employee, item), so the nesting and the key order of the source's dictionary are not modelled.
- CustodyManagement.CurrentHolders: returns the rows as a map keyed by (employee, item); the row order given by `Object.entries` (views/CustodyManagement.tsx:226-227) is not modelled.
- Reports.EmployeeClearance: returns the rows as a map keyed by item id; the row order given by `Object.values` (views/ReportsView.tsx:208) is not modelled.
- Reports.NetConsumption: returns the rows as a map keyed by item id; the row order given by `Object.values` (views/ReportsView.tsx:252) is not modelled.
- Dead-stock days (views/ReportsView.tsx:211) depend on the current time and are not modelled.
- The legacy custody-item coding screen, the dashboard, the header, authentication, settings, licensing, backups and the Electron storage layer are not part of this model.
