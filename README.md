# Baranchik inventory, modelled in Dafny

Baranchik Inventory is a stock-count application for the "Той самий Баранчик"
shops. Staff pick a city and go through three departments: crockery
(`dept-1`), household goods (`dept-2`) and packaging (`dept-3`). They type
a count for each item and export the tally as a spreadsheet. A Telegram bot
lets a manager upload a filled-in spreadsheet for a city and an inventory
type.

This project models the core of that system and proves properties of the
model:

- **The store (`inventory_store.dfy`).** The client's per-city store: one
  quantity map, item list and history list per city. It covers the
  city-initialisation effect and the four mutators: update a count, reset a
  department, add an item and delete an item.
- **The department screen (`department_inventory.dfy`,
  `department_inventory_logic.dfy`).** Its text fields and the rule that
  turns a field into a stored count on blur. Also the +1 / -1 buttons, the
  item code shown, the search filter and autocomplete, and the "zero counts
  first" order, which is a stable partition.
- **The spreadsheet export (`excel_export.dfy`).**
  - One workbook per department: an 8-row header, one row per item and a
    7-row footer.
  - The file name.
  - The unused summary sheet, whose totals can be added by row or by column.
  - The row styling passes.
- **The Google Sheets sync (`google_sheets.dfy`).** The sheets it adds, the
  values it writes to each department's sheet, and the summary sheet with
  one section per department and a totals row.
- **The bot dialogue (`telegram_bot.dfy`).** One session per chat, moved
  along by `/start`, the keyboard answers and uploaded files.
- **The inventory screen (`inventory_management.dfy`,
  `inventory_management_logic.dfy`).** The default tab, the export of the
  selected department, and the separate "recount" list.

`domain.dfy` holds the shared data: departments, items, and the quantity map
`departmentId -> itemId -> number | string`. It also holds the list
operations every part repeats (filter by category, add up the numeric
counts). `strings.dfy` models the JavaScript string operations the code uses.

How the model represents the source:

- A stored cell is `Num(real)` or `Str(string)`.
- JavaScript `Number(text)` and `toLowerCase` are function parameters.
- Dates reach the model as already formatted text, and `Date.now()` as a
  natural number.
- Objects whose fields change in place are classes: the store, the screens'
  state, the bot's session dictionary and the styles array. Their methods are
  proved against the pure functions that specify them.

The design description of the store says a history entry is logged on every
changed count. The code declares and persists a history list but never adds
an entry to it, and the model follows the code. The same description says
quantities are never negative; the store does not enforce this, and only the
-1 button clamps at 0 (`DepartmentInventory.DecrementedCount`).

## Model

| member | source | states |
|---|---|---|
| Domain.Lookup | src/components/department-inventory.tsx:300 | `inventoryData[d]?.[i]` is present exactly when the department map exists and holds the item, and is then the stored value |
| Domain.NumericCount | src/utils/excel-export.ts:169 | the count read for an item is the stored number; an absent or textual entry counts 0 |
| Domain.NumericCountLocal | src/utils/excel-export.ts:169 | a count depends only on its own department's map |
| Domain.Filter | src/hooks/use-inventory-data.ts:167 | `filter` is no longer than its input and keeps an element exactly when it is in the input and passes the test |
| Domain.FilterIsSubsequence | src/hooks/use-inventory-data.ts:167 | the kept elements stay in input order |
| Domain.FilterMultiset | src/hooks/use-inventory-data.ts:167 | each passing element is kept as often as it occurs, and no other element is kept |
| Domain.Map | src/utils/excel-export.ts:168 | `map` gives one result per element |
| Domain.MapCells | src/utils/excel-export.ts:168 | result `k` is the function applied to element `k` |
| Domain.ItemsInSpec | src/utils/excel-export.ts:25 | a category's items are the catalogue's items of that category, in catalogue order, with their multiplicities |
| Domain.GroupByCategory | src/utils/excel-export.ts:23-26 | `itemsByCategory` has a key for each department id and no other key, and each entry is that department's items in order (the inventory screen groups its tabs the same way, at inventory-management.tsx:35-41) |
| Domain.DepartmentTotal | src/components/department-inventory.tsx:138-143 | the department total is 0 for no items and non-negative when every stored number is |
| Domain.DepartmentTotalAppend | src/components/department-inventory.tsx:138-143 | the total over two item lists together is the sum of their totals |
| Strings.FindFrom | src/utils/excel-export.ts:172 | finds the leftmost occurrence at or after a position, or reports that there is none |
| Strings.IndexOf | src/utils/excel-export.ts:172 | finds the first occurrence, and is `None` exactly when the pattern never occurs |
| Strings.ContainsIff | src/components/department-inventory.tsx:129 | `includes` holds exactly when the pattern occurs somewhere |
| Strings.ReplaceFirst | src/utils/excel-export.ts:172 | `replace` with a string pattern changes only the first occurrence, and nothing when there is none |
| Strings.ReplacePrefix | backend/telegram-bot.js:37 | replacing a leading prefix by `""` leaves exactly the rest of the string |
| Strings.NatToString | src/hooks/use-inventory-data.ts:155 | `String(n)` of a whole number is never empty |
| Strings.NatToStringRoundTrip | src/hooks/use-inventory-data.ts:155 | `String(n)` is all digits and parses back to `n` |
| Strings.IntToString | src/components/department-inventory.tsx:79 | a negative number spells with a leading `-`; any other number spells as `String(n)` |
| Strings.NegativeNotDigits | src/components/department-inventory.tsx:171 | the text of a negative number never matches `^\d+$` |
| Strings.Trim | src/components/department-inventory.tsx:147 | `trim()` is a slice of its input with only white space cut at both ends, and its own ends are not white space |
| Strings.TrimEmptyIffBlank | src/components/department-inventory.tsx:147 | a string trims to `""` exactly when it is all white space |
| InventoryStore.CityData | src/hooks/use-inventory-data.ts:16 | the current city's quantity map, or `{}` |
| InventoryStore.CityItems | src/hooks/use-inventory-data.ts:17 | the current city's items, or `[]` |
| InventoryStore.CityHistory | src/hooks/use-inventory-data.ts:18 | the current city's history, or `[]` |
| InventoryStore.InitData | src/hooks/use-inventory-data.ts:22 | the city gets an empty map if it had none, and every existing entry is kept |
| InventoryStore.InitHistory | src/hooks/use-inventory-data.ts:23 | the city gets an empty history if it had none, and every existing entry is kept |
| InventoryStore.InitItems | src/hooks/use-inventory-data.ts:24-33 | the city gets an item list and every other city's list is kept |
| InventoryStore.SeededItems | src/hooks/use-inventory-data.ts:24-33 | defines the item list the init effect leaves for the city; SeededItemsRule states its three cases |
| InventoryStore.SeededItemsRule | src/hooks/use-inventory-data.ts:24-33 | a non-empty list survives; otherwise the city's catalog applies, or `[]` for a city without one |
| InventoryStore.InitIdempotent | src/hooks/use-inventory-data.ts:21-34 | running the city-initialisation effect twice is the same as running it once |
| InventoryStore.SetCount | src/hooks/use-inventory-data.ts:136-143 | the entry is set to the count and the department map is created if missing; every other entry and department is unchanged |
| InventoryStore.LastWriteWins | src/hooks/use-inventory-data.ts:136-143 | of two writes to one entry only the last is visible |
| InventoryStore.SetCountReadBack | src/hooks/use-inventory-data.ts:136-143 | after a write the entry reads back as the number written |
| InventoryStore.ResetDepartment | src/hooks/use-inventory-data.ts:145-151 | the department's map becomes empty and other departments are untouched |
| InventoryStore.ResetReadsZero | src/hooks/use-inventory-data.ts:145-151 | after a reset every item of the department counts 0, and so does the department total |
| InventoryStore.DepartmentTotalZero | src/hooks/use-inventory-data.ts:145-151 | an empty department map totals 0 over any items |
| InventoryStore.NewItem | src/hooks/use-inventory-data.ts:153-158 | the new item has the given name and category, and its id is `item-` followed by the time |
| InventoryStore.RemoveItem | src/hooks/use-inventory-data.ts:167 | exactly the items with other ids remain, in order; the list is unchanged when no item has the id |
| InventoryStore.AddThenDelete | src/hooks/use-inventory-data.ts:153-169 | adding an item with a fresh id and then deleting that id restores the list |
| InventoryStore.DeleteCount | src/hooks/use-inventory-data.ts:170-176 | the item's entry is removed from the given department only, and only if that department map exists |
| InventoryStore.Store.constructor | src/hooks/use-inventory-data.ts:8-34 | a new store holds the shared departments and an initialised entry for its city only |
| InventoryStore.Store.SelectCity | src/hooks/use-inventory-data.ts:21-34 | a change of city runs the initialisation effect for that city and keeps the departments |
| InventoryStore.Store.UpdateItemCount | src/hooks/use-inventory-data.ts:136-143 | only the current city's quantity map changes, to `SetCount` of the old one |
| InventoryStore.Store.ResetDepartmentCounts | src/hooks/use-inventory-data.ts:145-151 | only the current city's quantity map changes, to `ResetDepartment` of the old one |
| InventoryStore.Store.AddNewItem | src/hooks/use-inventory-data.ts:153-163 | the new item is appended to the current city's items; nothing else changes |
| InventoryStore.Store.DeleteItem | src/hooks/use-inventory-data.ts:165-177 | the item leaves the current city's list and its count leaves the department; history is untouched |
| InventoryStore.AddThenDeleteRestores | src/hooks/use-inventory-data.ts:153-177 | add followed by delete gives back the current city's items and leaves other cities alone |
| DepartmentInventory.BlurDecision | src/components/department-inventory.tsx:166-190 | defines what a blur does with a whole-unit field's text; BlurDecisionSpec states that digits are stored as their value, `""` as 0, and other text clears the field |
| DepartmentInventory.BlurDecisionSpec | src/components/department-inventory.tsx:166-190 | in a whole-unit department a blur stores a digit string as its number and an empty field as 0, and empties the field for any other text |
| DepartmentInventory.DecrementedCount | src/components/department-inventory.tsx:298-303 | −1 never goes below 0 and lowers any count of at least 1 by exactly 1 |
| DepartmentInventory.IncrementedCount | src/components/department-inventory.tsx:323-328 | +1 raises the count by exactly 1 |
| DepartmentInventory.IncrementDecrementInverse | src/components/department-inventory.tsx:298-328 | −1 undoes +1, and +1 undoes −1 on counts of at least 1 |
| DepartmentInventory.InitialInputValue | src/components/department-inventory.tsx:77-79 | defines the text the init effect puts in a whole-unit field, `String(Math.floor(Number(count)))`; BlurOfUntouchedField states that a blur of it stores the count again |
| DepartmentInventory.BlurOfUntouchedField | src/components/department-inventory.tsx:74-86 | blurring an untouched whole-unit field stores its count again; a negative count is rejected |
| DepartmentInventory.FirstMatchFrom | src/components/department-inventory.tsx:124 | finds the leftmost position where `/item-(.+)/` matches, or reports that there is none |
| DepartmentInventory.LineEnd | src/components/department-inventory.tsx:124 | the greedy `.+` stops at the first line terminator or at the end |
| DepartmentInventory.ItemCode | src/components/department-inventory.tsx:122-126 | the code is `""` without a match, and otherwise non-empty and on one line |
| DepartmentInventory.ItemCodeOfPlainId | src/components/department-inventory.tsx:122-126 | for a one-line id the code is the text after the first `item-`, or `""` |
| DepartmentInventory.ItemCodeOfNewItem | src/components/department-inventory.tsx:122-126 | an added item's code is its creation time |
| DepartmentInventory.FilteredItems | src/components/department-inventory.tsx:128-130 | the filter keeps exactly the items whose lower-cased name contains the lower-cased query, in order and with their multiplicities |
| DepartmentInventory.NumberOf | src/components/department-inventory.tsx:198-201 | defines `Number(stored ?? 0)`; RowsWithCount, DecrementedCount and IncrementedCount state the counts read through it |
| DepartmentInventory.RowsWithCount | src/components/department-inventory.tsx:198-201 | gives one row per item, with `Number` of its stored value or 0 |
| DepartmentInventory.SortedRows | src/components/department-inventory.tsx:204-210 | the sort permutes the rows, puts zero rows first when on, keeps the order within each group, and is the identity when off |
| DepartmentInventory.PartitionKeepsGroups | src/components/department-inventory.tsx:204-210 | zeros-then-others keeps each group as it was |
| DepartmentInventory.PartitionIsPermutation | src/components/department-inventory.tsx:204-210 | zeros-then-others is a permutation of the rows |
| DepartmentInventory.PartitionZerosFirst | src/components/department-inventory.tsx:204-210 | zeros-then-others has every zero row first |
| DepartmentInventory.NonZeroHeadAllNonZero | src/components/department-inventory.tsx:204-210 | in a zeros-first list, no zero row follows a non-zero one |
| DepartmentInventory.ZerosFirstTail | src/components/department-inventory.tsx:204-210 | a zeros-first list stays zeros-first without its head |
| DepartmentInventory.ZerosFirstSplits | src/components/department-inventory.tsx:204-210 | a zeros-first list is its zero rows followed by its other rows |
| DepartmentInventory.StableOrderIsUnique | src/components/department-inventory.tsx:204-210 | any zeros-first arrangement that keeps both groups' order is the sorted rows |
| DepartmentInventory.KeepDigits | src/components/department-inventory.tsx:95 | keeps exactly the digits, in order: every digit of the input as often as it occurs, and nothing else |
| DepartmentInventory.ValueChangeAgreesWithBlur | src/components/department-inventory.tsx:89-107 | on text the blur accepts, the change handler stores the same count |
| DepartmentInventory.FocusedFieldText | src/components/department-inventory.tsx:110-119 | focus empties a field showing `0` or `0,00` and leaves any other text |
| DepartmentInventory.FocusThenBlurKeepsZero | src/components/department-inventory.tsx:110-119 | a zero count shows `0`; focus changes only the DOM text, so the blur reads `0` and stores 0 again |
| DepartmentInventory.FirstWithId | src/components/department-inventory.tsx:240 | gives the first index with the id at or after a position, or none |
| DepartmentInventory.FindById | src/components/department-inventory.tsx:240 | `find` gives an item of the list with the id, and `None` exactly when there is none |
| DepartmentInventory.AutocompleteItems | src/components/department-inventory.tsx:132-135 | gives one option per item in order, keyed by id and labelled by name |
| DepartmentInventory.PickedSuggestionStaysVisible | src/components/department-inventory.tsx:237-241 | picking an option finds its item, and that item's name as the query keeps it listed |
| DepartmentInventory.DepartmentView.constructor | src/components/department-inventory.tsx:52-60 | the screen's initial state: the local query is the screen-wide one, and all other fields are empty or off |
| DepartmentInventory.DepartmentView.SetSearchQuery | src/components/department-inventory.tsx:69-71 | typing sets the local query and pushes it out as the screen-wide one |
| DepartmentInventory.DepartmentView.GlobalQueryChanged | src/components/department-inventory.tsx:65-67 | a new screen-wide query replaces the local one |
| DepartmentInventory.DepartmentView.SelectSuggestion | src/components/department-inventory.tsx:237-242 | a non-empty key selects the option and puts its item's name (or `""`) in the search box; other keys change nothing |
| DepartmentInventory.DepartmentView.ClearSearch | src/components/department-inventory.tsx:245-248 | clearing empties the query and the selection |
| DepartmentInventory.DepartmentView.SetNewItemName | src/components/department-inventory.tsx:364 | the new-item field holds what was typed |
| DepartmentInventory.DepartmentView.HandleAddItem | src/components/department-inventory.tsx:146-152 | a non-blank name is added trimmed to this department and the field is emptied; a blank name does nothing |
| DepartmentInventory.DepartmentView.HandleResetConfirm | src/components/department-inventory.tsx:155-158 | confirming empties this department's counts in the current city |
| DepartmentInventory.DepartmentView.OpenDeleteModal | src/components/department-inventory.tsx:221 | opens the delete dialog |
| DepartmentInventory.DepartmentView.SetDeleteSearch | src/components/department-inventory.tsx:442 | the dialog's search holds what was typed |
| DepartmentInventory.DepartmentView.MarkForDelete | src/components/department-inventory.tsx:455 | a click marks the item |
| DepartmentInventory.DepartmentView.ConfirmDelete | src/components/department-inventory.tsx:472-478 | a marked, non-empty id is deleted with its count and the dialog closes; otherwise nothing changes |
| DepartmentInventory.DepartmentView.CloseDeleteModal | src/components/department-inventory.tsx:485 | closes the dialog |
| DepartmentInventory.DepartmentView.RefreshInputValues | src/components/department-inventory.tsx:74-86 | the fields are exactly one per item, each holding its count's whole-number text |
| DepartmentInventory.DepartmentView.HandleInputChange | src/components/department-inventory.tsx:161-163 | only the edited field changes |
| DepartmentInventory.DepartmentView.HandleValueChange | src/components/department-inventory.tsx:89-107 | stores `parseInt` of the typed digits, or 0 |
| DepartmentInventory.DepartmentView.HandleInputBlur | src/components/department-inventory.tsx:166-190 | a blur stores the count the rule accepts, or empties the field without storing |
| DepartmentInventory.DepartmentView.Decrement | src/components/department-inventory.tsx:298-303 | stores the decremented count, which is never negative |
| DepartmentInventory.DepartmentView.Increment | src/components/department-inventory.tsx:323-328 | stores the incremented count |
| DepartmentInventory.DepartmentView.ToggleSort | src/components/department-inventory.tsx:277 | a click on the column header flips the zero-first order |
| DepartmentInventoryLogic.DepartmentInventoryHook.constructor | src/components/DepartmentInventory/DepartmentInventory.logic.ts:16-23 | the hook's initial state: the local query is the screen-wide one, and all other fields are empty or off |
| DepartmentInventoryLogic.DepartmentInventoryHook.GlobalQueryChanged | src/components/DepartmentInventory/DepartmentInventory.logic.ts:25-27 | a new screen-wide query replaces the local one |
| DepartmentInventoryLogic.DepartmentInventoryHook.SetSearchQuery | src/components/DepartmentInventory/DepartmentInventory.logic.ts:29-31 | the local query is written back as the screen-wide one |
| DepartmentInventoryLogic.DepartmentInventoryHook.Filtered | src/components/DepartmentInventory/DepartmentInventory.logic.ts:33-36 | keeps exactly the items whose name contains the query, ignoring case, in order |
| DepartmentInventoryLogic.DepartmentInventoryHook.Suggestions | src/components/DepartmentInventory/DepartmentInventory.logic.ts:37-40 | gives one option per item, keyed by id and labelled by name |
| DepartmentInventoryLogic.EmptyQueryListsAll | src/components/DepartmentInventory/DepartmentInventory.logic.ts:33-36 | an empty query lists every item |
| DepartmentInventoryLogic.SearchSyncSettles | src/components/DepartmentInventory/DepartmentInventory.logic.ts:25-31 | the two query effects reach a fixed point: the typed query is pushed out, and feeding it back changes no field |
| ExcelExport.OrganisationNamesCity | src/utils/excel-export.ts:157 | the organisation line is the brand followed by the city, or by `undefined` without one |
| ExcelExport.ExportCode | src/utils/excel-export.ts:172 | the exported code is the id with its first `item-` cut out, or the whole id when it has none |
| ExcelExport.ExportCodeOfGeneratedId | src/utils/excel-export.ts:172 | an added item exports its creation time as its code |
| ExcelExport.HouseholdUnit | src/utils/excel-export.ts:262-268 | `(л)` gives litres, then `(кг)` gives kilograms, and anything else gives pieces |
| ExcelExport.UnitFor | src/utils/excel-export.ts:178 | outside household goods the unit is pieces, and it is always one of the three units |
| ExcelExport.HouseholdUnitExamples | src/utils/excel-export.ts:262-268 | in household goods, oil marked `(л)` is in litres and napkins marked `(уп)` fall back to pieces; outside household goods the unit is pieces even for a `(л)` name |
| ExcelExport.DataRows | src/utils/excel-export.ts:168-182 | gives one data row per item, in order |
| ExcelExport.DepartmentSheet | src/utils/excel-export.ts:202 | defines `[...header, ...rows, ...footer]`; DepartmentSheetLength, DepartmentSheetHeader, DepartmentSheetItems and DepartmentSheetFooter state its rows |
| ExcelExport.DepartmentSheetLength | src/utils/excel-export.ts:202 | a sheet has 8 header rows, one row per item and 7 footer rows |
| ExcelExport.DepartmentSheetHeader | src/utils/excel-export.ts:156-165 | the organisation, store and column-title rows are as laid out |
| ExcelExport.DataRow | src/utils/excel-export.ts:168-182 | defines one item row; DepartmentSheetItems states its six cells |
| ExcelExport.DepartmentSheetItems | src/utils/excel-export.ts:168-182 | row `8+k` holds item `k`'s code, empty barcode, name, unit, numeric count and empty note |
| ExcelExport.DepartmentSheetFooter | src/utils/excel-export.ts:185-200 | the sheet ends with six blank rows and the signature row |
| ExcelExport.FileName | src/utils/excel-export.ts:43-44 | defines the file name; FileNameShape states its title, department, date and `.xlsx` ending |
| ExcelExport.FileNameShape | src/utils/excel-export.ts:43-44 | the file name is the report title, the department and the date, ending in `.xlsx` |
| ExcelExport.ExportToExcel | src/utils/excel-export.ts:14-37 | one workbook per department, in list order, each that department's workbook |
| ExcelExport.BuildWorkbook | src/utils/excel-export.ts:29-37 | one loop turn builds the department's workbook from the grouped items |
| ExcelExport.ExportedItemsAreTheDepartments | src/utils/excel-export.ts:23-37 | a sheet lists exactly its department's items, in order, with their multiplicities |
| ExcelExport.SheetReadsOwnDepartment | src/utils/excel-export.ts:168-169 | a sheet reads only its own department's counts |
| ExcelExport.CrockeryRowExample | src/utils/excel-export.ts:168-181 | 5 plates counted in crockery give the row `001, "", Тарілка, шт, 5, ""` |
| ExcelExport.Nums | src/utils/excel-export.ts:236 | gives one number cell per value |
| ExcelExport.NumsCells | src/utils/excel-export.ts:236 | each cell is the value at the same position |
| ExcelExport.ItemCounts | src/utils/excel-export.ts:234-238 | gives an item's numeric count under each department, in order |
| ExcelExport.DepartmentTotals | src/utils/excel-export.ts:245-249 | gives each department's total over all items |
| ExcelExport.Names | src/utils/excel-export.ts:227 | gives the department names, in order |
| ExcelExport.SummaryItemRow | src/utils/excel-export.ts:230-242 | defines a summary item row; SummaryItemRowCells states its cells and GrandTotalByRows relates its totals to the column totals |
| ExcelExport.SummaryItemRowCells | src/utils/excel-export.ts:230-242 | an item row is the name, its count per department and their sum |
| ExcelExport.CreateSummarySheet | src/utils/excel-export.ts:221-256 | the summary sheet is the header, one row per item, then the totals row |
| ExcelExport.ItemRow | src/utils/excel-export.ts:230-242 | the inner loop builds the item's cells and its running total |
| ExcelExport.ItemCountsStep | src/utils/excel-export.ts:234-238 | one more department adds one cell and one term to the total |
| ExcelExport.DepartmentTotalStep | src/utils/excel-export.ts:247 | one more item adds its count to the running total |
| ExcelExport.DepartmentTotalsStep | src/utils/excel-export.ts:246-249 | one more department adds its total |
| ExcelExport.SummaryColumn | src/utils/excel-export.ts:247 | column `idx+1` of the item rows holds department `idx`'s counts |
| ExcelExport.ColumnTotal | src/utils/excel-export.ts:247 | adding up a column read back from the sheet gives the department's total |
| ExcelExport.SumPointwise | src/utils/excel-export.ts:250 | summing elementwise sums equals the sum of the two sums |
| ExcelExport.SumOfZeros | src/utils/excel-export.ts:250 | zeros add up to 0 |
| ExcelExport.SummaryTotalsRow | src/utils/excel-export.ts:245-250 | defines the totals row; ColumnTotal states each column total and GrandTotalByRows that the grand total equals the sum of the row totals |
| ExcelExport.GrandTotalByRows | src/utils/excel-export.ts:240-250 | the grand total by columns equals the sum of the row totals |
| ExcelExport.ApplyDepartmentStyles | src/utils/excel-export.ts:322-386 | each row ends with the style of the last pass that covers it |
| ExcelExport.DepartmentSheetStyles | src/utils/excel-export.ts:322-386 | on a sheet, rows 0-6 get the header style, row 7 the column-title style, exactly the item rows the data style and the footer rows the footer style |
| GoogleSheets.ValueRows | src/utils/google-sheets.ts:137-149 | gives one row per item |
| GoogleSheets.ValueRowsCells | src/utils/google-sheets.ts:137-149 | row `k` is item `k`'s row with position `k+1` |
| GoogleSheets.DepartmentValues | src/utils/google-sheets.ts:132-151 | defines `[headerRow, ...dataRows]`; DepartmentValuesLayout states its label row and each own item's five cells |
| GoogleSheets.DepartmentValuesLayout | src/utils/google-sheets.ts:132-151 | a department sheet is the five labels and then, per own item in order: position, name, numeric count, last update and user |
| GoogleSheets.LastUpdatedRule | src/utils/google-sheets.ts:142-144 | gives the formatted stamp exactly when a truthy stamp is stored, and `-` otherwise |
| GoogleSheets.UpdatedByRule | src/utils/google-sheets.ts:146 | gives the stored user exactly when it is truthy, and `-` otherwise |
| GoogleSheets.MissingDepartmentSheetsSpec | src/utils/google-sheets.ts:203-218 | a department title is requested exactly when it is missing |
| GoogleSheets.MissingSheets | src/utils/google-sheets.ts:184-218 | defines the titles `ensureSheetsExist` adds; MissingSheetsSpec states that a title is added exactly when it is needed and missing |
| GoogleSheets.MissingSheetsSpec | src/utils/google-sheets.ts:184-218 | a title is requested exactly when it is the summary's or a department's and is missing |
| GoogleSheets.AllSheetsExistAfterAdding | src/utils/google-sheets.ts:184-218 | after the additions every sheet the sync writes exists |
| GoogleSheets.EnsureSheetsExist | src/utils/google-sheets.ts:177-223 | the add requests are the missing sheets, summary first |
| GoogleSheets.OwnCounts | src/utils/google-sheets.ts:257-264 | gives one cell per department |
| GoogleSheets.OwnCountsCells | src/utils/google-sheets.ts:257-264 | a cell is the own count under the item's category, and 0 elsewhere |
| GoogleSheets.ItemRows | src/utils/google-sheets.ts:252-270 | gives one row per item |
| GoogleSheets.CategoryTotals | src/utils/google-sheets.ts:280-292 | gives one total per department |
| GoogleSheets.CategoryTotalsCells | src/utils/google-sheets.ts:280-292 | a department's total is over its own items |
| GoogleSheets.SectionsSize | src/utils/google-sheets.ts:247-274 | each section has its items plus 2 rows |
| GoogleSheets.SummaryValues | src/utils/google-sheets.ts:236-306 | defines the summary sheet's values; SummaryRowCount states its rows and UpdateSummarySheet that the loops write exactly it |
| GoogleSheets.SummaryRowCount | src/utils/google-sheets.ts:236-306 | the summary is the header, the sections and the totals row |
| GoogleSheets.ItemRow | src/utils/google-sheets.ts:253-267 | defines a summary item row; ItemRowCells and ItemRowTotalIsOwnCount state its cells and total |
| GoogleSheets.ItemRowCells | src/utils/google-sheets.ts:253-267 | other columns are 0, the own column holds the count, and the last cell is the sum |
| GoogleSheets.OwnCountsZero | src/utils/google-sheets.ts:257-264 | without a department of the item's category the row sums to 0 |
| GoogleSheets.ItemRowTotalIsOwnCount | src/utils/google-sheets.ts:253-267 | with distinct department ids a row's total is the item's own count |
| GoogleSheets.RowTotals | src/utils/google-sheets.ts:267 | gives one row total per item |
| GoogleSheets.TotalsRow | src/utils/google-sheets.ts:277-298 | defines the totals row; SectionTotalMatchesRows states that each of its cells is its section's sum of row totals |
| GoogleSheets.SectionTotalMatchesRows | src/utils/google-sheets.ts:252-292 | a totals-row cell is the sum of the row totals of its section |
| GoogleSheets.UpdateSummarySheet | src/utils/google-sheets.ts:228-308 | writes exactly the summary values |
| GoogleSheets.BuildSections | src/utils/google-sheets.ts:247-274 | the section loop builds every department's section, in order |
| GoogleSheets.SectionsStep | src/utils/google-sheets.ts:247-274 | one more department appends its section |
| GoogleSheets.Section | src/utils/google-sheets.ts:249-273 | defines one department's section; SectionsSize states its size and AppendSection that the loop builds it |
| GoogleSheets.AppendSection | src/utils/google-sheets.ts:249-273 | a section is its title row, its item rows and a blank row |
| GoogleSheets.AppendItemRows | src/utils/google-sheets.ts:252-270 | pushes one row per own item |
| GoogleSheets.ItemRowsStep | src/utils/google-sheets.ts:252-270 | one more item appends its row |
| GoogleSheets.BuildItemRow | src/utils/google-sheets.ts:253-267 | the inner loop builds the item row with its running total |
| GoogleSheets.OwnCountsStep | src/utils/google-sheets.ts:257-264 | one more department adds one cell and one term |
| GoogleSheets.BuildTotalsRow | src/utils/google-sheets.ts:277-298 | builds the totals row: label, department totals, grand total |
| GoogleSheets.BuildTotals | src/utils/google-sheets.ts:280-292 | the two pushes build the same totals |
| GoogleSheets.CategoryTotalsStep | src/utils/google-sheets.ts:280-292 | one more department adds its total |
| GoogleSheets.NumsStep | src/utils/google-sheets.ts:291 | pushing a total appends its cell |
| GoogleSheets.CategoryTotal | src/utils/google-sheets.ts:281-288 | a department's running total is its own items' total |
| GoogleSheets.SumInOrder | src/utils/google-sheets.ts:295 | `reduce` adds the totals left to right |
| GoogleSheets.UpdateOf | src/utils/google-sheets.ts:150-160 | defines each department's `values.update` call, range `<name>!A1` with its DepartmentValues; SyncWithGoogleSheets states that one is made per department, in order |
| GoogleSheets.SyncWithGoogleSheets | src/utils/google-sheets.ts:112-165 | adds the missing sheets, writes each department in order and then the summary |
| TelegramBot.CallbackStep | backend/telegram-bot.js:36-85 | defines the session after a keyboard answer; CityAnswer, TypeAnswer, ClearAndFinishAnswers, UnknownAnswerKeepsSession and CallbackKeepsSessionOk state its cases |
| TelegramBot.CityAnswer | backend/telegram-bot.js:36-38 | `city_X` sets the city to `X` and moves to the clear question |
| TelegramBot.TypeAnswer | backend/telegram-bot.js:66-68 | `type_X` sets the type to `X` and moves to the upload step |
| TelegramBot.ClearAndFinishAnswers | backend/telegram-bot.js:46-85 | both clear answers and `next_type` go to the type step, and `finish` ends the session |
| TelegramBot.UnknownAnswerKeepsSession | backend/telegram-bot.js:36-85 | unknown data leaves the session as it was |
| TelegramBot.CallbackKeepsSessionOk | backend/telegram-bot.js:31-85 | every answer keeps the session invariant |
| TelegramBot.ClearTargets | backend/telegram-bot.js:50-52 | the sheets to clear are the city's sheets for the three types, in order |
| TelegramBot.ClearOldSheetsAsWritten | backend/telegram-bot.js:48-55 | as written, every clear attempt throws, so nothing is cleared |
| TelegramBot.ClearOldSheets | backend/telegram-bot.js:48-54 | with `clearSheet` available, each type's sheet of the city is cleared, in order |
| TelegramBot.ClearTargetsCoverUploadRanges | backend/telegram-bot.js:50-52 | for each offered type, the sheet an upload writes is among those cleared |
| TelegramBot.NextTypeThenUpload | backend/telegram-bot.js:66-114 | after an upload, `next_type` and a type answer lead to an upload of that type for the same city |
| TelegramBot.UploadTarget | backend/telegram-bot.js:91-104 | defines the sheet an upload goes to; UploadTargetIff states when it is accepted and where it goes |
| TelegramBot.UploadTargetIff | backend/telegram-bot.js:91-104 | a file is accepted exactly at the upload step with a city and a type set; it goes to `city_type` |
| TelegramBot.Bot.constructor | backend/telegram-bot.js:13 | no sessions at start |
| TelegramBot.Bot.OnText | backend/telegram-bot.js:17-19 | a message containing `/start` resets the chat's session; other messages change nothing |
| TelegramBot.Bot.OnCallback | backend/telegram-bot.js:31-86 | opens a session if the chat has none and applies the answer, keeping the invariant; for `clear_yes` it returns the three sheets the handler tries to clear (as written each attempt throws, see ## Findings) |
| TelegramBot.Bot.OnDocument | backend/telegram-bot.js:88-118 | a refused file changes nothing, and only a successful upload moves to `wait_next` |
| InventoryManagement.FindDepartment | src/components/inventory-management.tsx:73 | `find` gives a department of the list with the key, and `None` exactly when there is none |
| InventoryManagement.FindDepartmentFirst | src/components/inventory-management.tsx:73 | the department found is the first with that id |
| InventoryManagement.HandleExportToExcel | src/components/inventory-management.tsx:71-78 | exports only with a selected, matching tab: that department alone, all items, the full map, and no city |
| InventoryManagement.DefaultTab | src/components/inventory-management.tsx:30-32 | defines the default tab, the first department's id unless it is missing or empty; DefaultTabExportsFirstDepartment states that it exports the first department |
| InventoryManagement.DefaultTabExportsFirstDepartment | src/components/inventory-management.tsx:30-32 | with the default tab the export is the first department's |
| InventoryManagement.ExportHeaderReadsUndefined | src/components/inventory-management.tsx:75 | as written, the exported header reads `Той самий Баранчик undefined` |
| InventoryManagement.RecountIdInjective | src/components/inventory-management.tsx:115 | recount ids made at different times differ |
| InventoryManagement.RecountIdIsNotAnItemId | src/components/inventory-management.tsx:115 | a recount id is never an `item-` id |
| InventoryManagement.Screen.constructor | src/components/inventory-management.tsx:108-109 | no tab, no recount entries and an empty input at start |
| InventoryManagement.Screen.DepartmentsChanged | src/components/inventory-management.tsx:30-32 | the tab resets to the first department's id, or none |
| InventoryManagement.Screen.SelectTab | src/components/inventory-management.tsx:180 | a tab click selects it |
| InventoryManagement.Screen.ExportCurrent | src/components/inventory-management.tsx:71-78 | the buttons make the call `HandleExportToExcel` describes |
| InventoryManagement.Screen.SetRecountInput | src/components/inventory-management.tsx:109 | the recount input holds what was typed |
| InventoryManagement.Screen.AddRecountItem | src/components/inventory-management.tsx:111-119 | non-blank input appends a trimmed recount entry and empties the input; blank input changes nothing |
| InventoryManagement.Screen.DeleteRecountItem | src/components/inventory-management.tsx:120-122 | removes every entry with the id and keeps the rest in order |
| InventoryManagement.Screen.ClearRecount | src/components/inventory-management.tsx:123 | empties the recount list |
| InventoryManagement.AddThenDeleteRecount | src/components/inventory-management.tsx:111-122 | adding a fresh entry and deleting its id restores the list |
| InventoryManagementLogic.ResolveProps | src/components/InventoryManagement/InventoryManagement.logic.ts:7 | the city defaults to Кременчук and the menu flag to false |
| InventoryManagementLogic.Narrow | src/components/InventoryManagement/InventoryManagement.logic.ts:45 | defines the one-department quantity map, with `{}` for a department without one; NarrowKeepsDepartment and ExportNamesCity state that it keeps the department's counts |
| InventoryManagementLogic.NarrowKeepsDepartment | src/components/InventoryManagement/InventoryManagement.logic.ts:45 | the narrowed map has one key and the same counts for that department |
| InventoryManagementLogic.HandleExportToExcel | src/components/InventoryManagement/InventoryManagement.logic.ts:38-51 | exports only with a selected, matching tab: that department alone, only its quantities, and the city |
| InventoryManagementLogic.ExportNamesCity | src/components/InventoryManagement/InventoryManagement.logic.ts:42-48 | the exported workbook equals the one built from the full map, and its header names the city |
| InventoryManagementLogic.Hook.constructor | src/components/InventoryManagement/InventoryManagement.logic.ts:7-12 | the hook starts with its resolved props and no tab |
| InventoryManagementLogic.Hook.DepartmentsChanged | src/components/InventoryManagement/InventoryManagement.logic.ts:16-18 | the tab resets to the first department's id, or none |
| InventoryManagementLogic.Hook.SelectTab | src/components/InventoryManagement/InventoryManagement.logic.ts:96-97 | selecting a tab sets it |
| InventoryManagementLogic.Hook.ExportCurrent | src/components/InventoryManagement/InventoryManagement.logic.ts:38-51 | the export makes the call `HandleExportToExcel` describes |

## Left out

- Persistence: the `localStorage` reads and writes and the JSON encoding. The store's maps are the in-memory state only.
- Connectivity: `isOnline`, `syncStatus`, the online/offline listeners, and the sync trigger in the store hook.
- Google API plumbing: `gapi` loading, sign-in and sign-out, and the formatting requests for the summary sheet. The sheet titles that already exist are a parameter of the sync.
- Export delivery: `XLSX.write`, Blob/File, Web Share, the download link and the Telegram deep links. The sheet's page footer, column widths and row heights.
- Cell style contents: only which pass styles which row is modelled. The summary sheet's `applyStyles` is not modelled.
- Dates: `toISOString`, `toLocaleDateString` and `toLocaleString` results are string parameters, and `Date.now()` is a natural-number parameter.
- Number parsing: `Number(text)` of a stored string is an uninterpreted parameter, and NaN and Infinity are not modelled.
- Number precision: JavaScript numbers are IEEE doubles, and the model uses exact reals and unbounded integers. Three behaviours are lost. Decimal sums in household goods (such as 0.1 + 0.2) round, both in `departmentTotal` and in both exporters' totals. The source also adds those totals left to right, while `Domain.DepartmentTotal` adds from the right, which matters only under rounding. `+1` stops changing a count beyond 2^53. `String(n)` switches to exponent notation for n >= 1e21.
- DepartmentInventory.DepartmentView.HandleInputBlur: requires a whole-unit department; the `parseFloat` branch for household goods is not modelled, because it depends on floating point.
- DepartmentInventory.DepartmentView.HandleValueChange: requires a whole-unit department; the `parseFloat`/`toFixed(2)` branch for household goods is not modelled, because it depends on floating point.
- DepartmentInventory.DepartmentView.RefreshInputValues: requires a whole-unit department; the `toFixed(2)` text of household goods is not modelled, because it depends on floating point.
- The inner department maps are values. The source changes them in place: `cityData[departmentId][itemId] = count` in updateItemCount (use-inventory-data.ts:140) and `delete cityData[departmentId][itemId]` in deleteItem (use-inventory-data.ts:173). Both writes also change the previous state object that shares the inner map. That aliasing is not modelled.
- Bot I/O: the messages sent, the file download, the temporary files and the spreadsheet upload in the backend helpers. Whether the upload succeeds is a parameter.
- Bot concurrency: handlers run one at a time. The source keeps a captured `session` object across `await`, so it can write to a session that `finish` has already deleted. Interleavings like that are not modelled.
- UI glue: theme, scroll-to-top, share-support detection, modal refs, and the dialogs' open and close flags beyond those listed above.
- Seed catalogs (`cityItems`) are a parameter of the store, not their contents.
- `showZeroOnly` of the department screen and its hook is declared but never read by the code, so only its initial value is modelled.

## Findings

| source | as written | input that shows it | evidently intended | confidence | as-written member | corrected member |
|---|---|---|---|---|---|---|
| backend/telegram-bot.js:52 | `clearSheet` is called but never imported (line 6 imports only `handleExcelFile`). Each call throws a ReferenceError, the empty `catch` swallows it, and the bot then reports the old sheets as cleared. | the answer `clear_yes` after choosing any city | the city's `posuda`, `hoz` and `upakovka` sheets are cleared, in that order | not executed | TelegramBot.ClearOldSheetsAsWritten | TelegramBot.ClearOldSheets |
| src/components/inventory-management.tsx:75 | `exportToExcel` is called without its `city` argument, so the organisation line of the exported sheet reads `Той самий Баранчик undefined` | any export with a selected department | the city is passed, as the hook variant does at InventoryManagement.logic.ts:42-48 | not executed | InventoryManagement.ExportHeaderReadsUndefined | InventoryManagementLogic.ExportNamesCity |
