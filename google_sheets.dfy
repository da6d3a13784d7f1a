/**
 * The Google Sheets synchronisation of the web client: the values written to
 * each department's sheet, the decision which sheets must be added before
 * writing, and the summary sheet with one section per department and a
 * totals row. The API calls themselves are not modelled: each write becomes
 * an `Update` record naming its range and its values.
 */
module GoogleSheets {
  import opened Wrappers
  import opened Domain
  import ExcelExport

  type SheetRow = ExcelExport.SheetRow
  type Sheet = ExcelExport.Sheet

  /** The title of the summary sheet. */
  const SummaryTitle: string := "Сводная"

  // ---------------------------------------------------------------------------
  // Department sheets
  // ---------------------------------------------------------------------------

  /** JavaScript truthiness of a stored value: `0` and `""` are falsy. */
  predicate Truthy(v: Value) {
    match v
    case Num(n) => n != 0.0
    case Str(s) => s != ""
  }

  const DepartmentHeader: SheetRow :=
    [Value.Str("№"), Value.Str("Наименование"), Value.Str("Количество"),
     Value.Str("Последнее обновление"), Value.Str("Кто обновил")]

  /**
   * `lastUpdated`: the stored `<id>_timestamp` entry formatted as a local date
   * and time when it is truthy, otherwise `"-"`. The formatting
   * (`new Date(...).toLocaleString()`) is the parameter `formatStamp`.
   */
  function LastUpdated(data: InventoryData, d: string, itemId: string, formatStamp: Value -> string): string {
    match Lookup(data, d, itemId + "_timestamp")
    case Some(v) => if Truthy(v) then formatStamp(v) else "-"
    case None => "-"
  }

  /** `updatedBy`: the stored `<id>_user` entry when it is truthy, otherwise `"-"`. */
  function UpdatedBy(data: InventoryData, d: string, itemId: string): Value {
    match Lookup(data, d, itemId + "_user")
    case Some(v) => if Truthy(v) then v else Str("-")
    case None => Str("-")
  }

  /** The row of the item at position `index` of its department's list. */
  function ValueRow(department: Department, item: Item, index: nat, data: InventoryData,
                    formatStamp: Value -> string): SheetRow {
    [Num((index + 1) as real), Str(item.name), Num(NumericCount(data, department.id, item.id)),
     Str(LastUpdated(data, department.id, item.id, formatStamp)), UpdatedBy(data, department.id, item.id)]
  }

  /** `departmentItems.map((item, index) => ...)`. */
  function ValueRows(department: Department, own: seq<Item>, data: InventoryData,
                     formatStamp: Value -> string): (rows: Sheet)
    ensures |rows| == |own|
  {
    if own == [] then []
    else
      var n := |own| - 1;
      ValueRows(department, own[..n], data, formatStamp) + [ValueRow(department, own[n], n, data, formatStamp)]
  }

  lemma {:induction false} ValueRowsCells(department: Department, own: seq<Item>, data: InventoryData,
                                          formatStamp: Value -> string, k: nat)
    requires k < |own|
    ensures ValueRows(department, own, data, formatStamp)[k] == ValueRow(department, own[k], k, data, formatStamp)
    decreases |own|
  {
    var n := |own| - 1;
    if k < n {
      ValueRowsCells(department, own[..n], data, formatStamp, k);
    }
  }

  /** `[headerRow, ...dataRows]` for one department. */
  function DepartmentValues(department: Department, items: seq<Item>, data: InventoryData,
                            formatStamp: Value -> string): Sheet {
    [DepartmentHeader] + ValueRows(department, ItemsIn(items, department.id), data, formatStamp)
  }

  /**
   * A department sheet is the five-label header, then one row per item of
   * that department in list order: its 1-based position, its name, its
   * numeric count (0 when absent or text), when it was last updated and by whom.
   */
  lemma DepartmentValuesLayout(department: Department, items: seq<Item>, data: InventoryData,
                               formatStamp: Value -> string, k: nat)
    requires k < |ItemsIn(items, department.id)|
    ensures var own := ItemsIn(items, department.id);
      var values := DepartmentValues(department, items, data, formatStamp);
      && |values| == |own| + 1
      && values[0] == DepartmentHeader
      && values[k + 1] == [Num((k + 1) as real), Str(own[k].name), Num(NumericCount(data, department.id, own[k].id)),
                           Str(LastUpdated(data, department.id, own[k].id, formatStamp)),
                           UpdatedBy(data, department.id, own[k].id)]
  {
    ValueRowsCells(department, ItemsIn(items, department.id), data, formatStamp, k);
  }

  /** "Last updated" is the formatted stamp exactly when a truthy stamp is stored, else `"-"`. */
  lemma LastUpdatedRule(data: InventoryData, d: string, itemId: string, formatStamp: Value -> string)
    ensures var key := itemId + "_timestamp";
      && (d in data && key in data[d] && Truthy(data[d][key]) ==>
            LastUpdated(data, d, itemId, formatStamp) == formatStamp(data[d][key]))
      && (!(d in data && key in data[d] && Truthy(data[d][key])) ==> LastUpdated(data, d, itemId, formatStamp) == "-")
  {
  }

  /** "Updated by" is the stored user exactly when a truthy one is stored, else `"-"`. */
  lemma UpdatedByRule(data: InventoryData, d: string, itemId: string)
    ensures var key := itemId + "_user";
      && (d in data && key in data[d] && Truthy(data[d][key]) ==> UpdatedBy(data, d, itemId) == data[d][key])
      && (!(d in data && key in data[d] && Truthy(data[d][key])) ==> UpdatedBy(data, d, itemId) == Str("-"))
  {
  }

  // ---------------------------------------------------------------------------
  // Adding missing sheets
  // ---------------------------------------------------------------------------

  /** The titles `ensureSheetsExist` adds: the summary if missing, then each missing department name. */
  function MissingSheets(existing: seq<string>, departments: seq<Department>): seq<string> {
    (if SummaryTitle in existing then [] else [SummaryTitle]) + MissingDepartmentSheets(existing, departments)
  }

  function MissingDepartmentSheets(existing: seq<string>, departments: seq<Department>): seq<string> {
    if departments == [] then []
    else
      var rest := MissingDepartmentSheets(existing, departments[..|departments| - 1]);
      var name := departments[|departments| - 1].name;
      if name in existing then rest else rest + [name]
  }

  /**
   * A title is requested exactly when it is not an existing title and it is
   * the summary's or a department's name.
   */
  lemma {:induction false} MissingDepartmentSheetsSpec(existing: seq<string>, departments: seq<Department>)
    ensures forall t :: t in MissingDepartmentSheets(existing, departments) <==>
      t !in existing && exists d :: d in departments && d.name == t
    decreases |departments|
  {
    if departments != [] {
      var init := departments[..|departments| - 1];
      var last := departments[|departments| - 1];
      MissingDepartmentSheetsSpec(existing, init);
      assert departments == init + [last];
      forall t | t !in existing && (exists d :: d in departments && d.name == t)
        ensures t in MissingDepartmentSheets(existing, departments)
      {
        var d :| d in departments && d.name == t;
        if d != last {
          assert d in init;
        }
      }
    }
  }

  lemma MissingSheetsSpec(existing: seq<string>, departments: seq<Department>)
    ensures forall t :: t in MissingSheets(existing, departments) <==>
      t !in existing && (t == SummaryTitle || exists d :: d in departments && d.name == t)
  {
    MissingDepartmentSheetsSpec(existing, departments);
  }

  /** After the additions every title the sync writes to exists. */
  lemma AllSheetsExistAfterAdding(existing: seq<string>, departments: seq<Department>)
    ensures var titles := existing + MissingSheets(existing, departments);
      SummaryTitle in titles && forall d :: d in departments ==> d.name in titles
  {
    MissingSheetsSpec(existing, departments);
  }

  /** `ensureSheetsExist`: the `addSheet` requests, in the order they are sent. */
  method EnsureSheetsExist(existing: seq<string>, departments: seq<Department>) returns (added: seq<string>)
    ensures added == MissingSheets(existing, departments)
  {
    added := [];
    if SummaryTitle !in existing {
      added := added + [SummaryTitle];
    }
    ghost var summaryPart := added;
    for k := 0 to |departments|
      invariant added == summaryPart + MissingDepartmentSheets(existing, departments[..k])
    {
      assert departments[..k + 1][..k] == departments[..k];
      if departments[k].name !in existing {
        added := added + [departments[k].name];
      }
    }
    assert departments[..|departments|] == departments;
  }

  // ---------------------------------------------------------------------------
  // Summary sheet
  // ---------------------------------------------------------------------------

  function SummaryHeader(departments: seq<Department>): SheetRow {
    [Str("Наименование")] + ExcelExport.Names(departments) + [Str("Итого")]
  }

  /** The count an item shows under department `d`: its own count in its own category, else 0. */
  function OwnCount(d: Department, item: Item, data: InventoryData): real {
    if d.id == item.category then NumericCount(data, d.id, item.id) else 0.0
  }

  /** The item's cells under each department, in department order. */
  function OwnCounts(departments: seq<Department>, data: InventoryData, item: Item): (r: seq<real>)
    ensures |r| == |departments|
  {
    if departments == [] then []
    else OwnCounts(departments[..|departments| - 1], data, item) + [OwnCount(departments[|departments| - 1], item, data)]
  }

  lemma {:induction false} OwnCountsCells(departments: seq<Department>, data: InventoryData, item: Item)
    ensures forall k :: 0 <= k < |departments| ==> OwnCounts(departments, data, item)[k] == OwnCount(departments[k], item, data)
    decreases |departments|
  {
    if departments != [] {
      OwnCountsCells(departments[..|departments| - 1], data, item);
    }
  }

  /** An item row: the name, one cell per department, then the row's total. */
  function ItemRow(departments: seq<Department>, data: InventoryData, item: Item): SheetRow {
    [Str(item.name)] + ExcelExport.Nums(OwnCounts(departments, data, item))
      + [Num(ExcelExport.Sum(OwnCounts(departments, data, item)))]
  }

  function ItemRows(departments: seq<Department>, data: InventoryData, items: seq<Item>): (r: Sheet)
    ensures |r| == |items|
  {
    if items == [] then [] else ItemRows(departments, data, items[..|items| - 1]) + [ItemRow(departments, data, items[|items| - 1])]
  }

  function SectionRow(department: Department): SheetRow {
    [Str(department.name), Str(""), Str(""), Str(""), Str("")]
  }

  const BlankRow: SheetRow := [Value.Str(""), Value.Str(""), Value.Str(""), Value.Str(""), Value.Str("")]

  /** One department's section: its title row, its items' rows, a blank row. */
  function Section(department: Department, departments: seq<Department>, items: seq<Item>, data: InventoryData): Sheet {
    [SectionRow(department)] + ItemRows(departments, data, ItemsIn(items, department.id)) + [BlankRow]
  }

  /** The sections of the departments `shown`, in order; the columns are always all `departments`. */
  function Sections(shown: seq<Department>, departments: seq<Department>, items: seq<Item>, data: InventoryData): Sheet {
    if shown == [] then []
    else Sections(shown[..|shown| - 1], departments, items, data) + Section(shown[|shown| - 1], departments, items, data)
  }

  /** Each department's total over the items of its own category. */
  function CategoryTotals(departments: seq<Department>, items: seq<Item>, data: InventoryData): (r: seq<real>)
    ensures |r| == |departments|
  {
    if departments == [] then []
    else
      var d := departments[|departments| - 1];
      CategoryTotals(departments[..|departments| - 1], items, data) + [DepartmentTotal(ItemsIn(items, d.id), data, d.id)]
  }

  /** The totals row's cell for department `k` is that department's total over its own items. */
  lemma {:induction false} CategoryTotalsCells(departments: seq<Department>, items: seq<Item>, data: InventoryData, k: nat)
    requires k < |departments|
    ensures CategoryTotals(departments, items, data)[k]
         == DepartmentTotal(ItemsIn(items, departments[k].id), data, departments[k].id)
    decreases |departments|
  {
    var n := |departments| - 1;
    if k < n {
      CategoryTotalsCells(departments[..n], items, data, k);
    }
  }

  function TotalsRow(departments: seq<Department>, items: seq<Item>, data: InventoryData): SheetRow {
    [Str("ИТОГО")] + ExcelExport.Nums(CategoryTotals(departments, items, data))
      + [Num(ExcelExport.Sum(CategoryTotals(departments, items, data)))]
  }

  /** `[headerRow, ...allRows]` as written to the summary sheet. */
  function SummaryValues(departments: seq<Department>, items: seq<Item>, data: InventoryData): Sheet {
    [SummaryHeader(departments)] + Sections(departments, departments, items, data) + [TotalsRow(departments, items, data)]
  }

  /** `Σ (n_d + 2)` over the departments, `n_d` the number of items in `d`'s category. */
  function SectionSizes(shown: seq<Department>, items: seq<Item>): nat {
    if shown == [] then 0
    else SectionSizes(shown[..|shown| - 1], items) + |ItemsIn(items, shown[|shown| - 1].id)| + 2
  }

  lemma {:induction false} SectionsSize(shown: seq<Department>, departments: seq<Department>, items: seq<Item>, data: InventoryData)
    ensures |Sections(shown, departments, items, data)| == SectionSizes(shown, items)
    decreases |shown|
  {
    if shown != [] {
      SectionsSize(shown[..|shown| - 1], departments, items, data);
    }
  }

  /** The summary sheet has the header, `Σ (n_d + 2)` section rows and the totals row. */
  lemma SummaryRowCount(departments: seq<Department>, items: seq<Item>, data: InventoryData)
    ensures |SummaryValues(departments, items, data)| == 1 + SectionSizes(departments, items) + 1
  {
    SectionsSize(departments, departments, items, data);
  }

  /** Department ids are unique. */
  predicate DistinctDepartmentIds(departments: seq<Department>) {
    forall i, j :: 0 <= i < j < |departments| ==> departments[i].id != departments[j].id
  }

  /**
   * In an item row every department column other than the item's own
   * category shows 0, its own column shows its numeric count, and the last
   * cell is the sum of those columns.
   */
  lemma ItemRowCells(departments: seq<Department>, data: InventoryData, item: Item)
    ensures var row := ItemRow(departments, data, item);
      && |row| == |departments| + 2 && row[0] == Str(item.name)
      && (forall k :: 0 <= k < |departments| && departments[k].id != item.category ==> row[k + 1] == Num(0.0))
      && (forall k :: 0 <= k < |departments| && departments[k].id == item.category ==>
            row[k + 1] == Num(NumericCount(data, item.category, item.id)))
      && row[|departments| + 1] == Num(ExcelExport.Sum(OwnCounts(departments, data, item)))
  {
    OwnCountsCells(departments, data, item);
    ExcelExport.NumsCells(OwnCounts(departments, data, item));
  }

  /** With no department of the item's category, every cell of the row is 0. */
  lemma OwnCountsZero(departments: seq<Department>, data: InventoryData, item: Item)
    requires forall d :: d in departments ==> d.id != item.category
    ensures ExcelExport.Sum(OwnCounts(departments, data, item)) == 0.0
  {
    var counts := OwnCounts(departments, data, item);
    OwnCountsCells(departments, data, item);
    forall k | 0 <= k < |counts|
      ensures counts[k] == 0.0
    {
      assert departments[k] in departments;
    }
    ExcelExport.SumOfZeros(counts);
  }

  /**
   * With distinct department ids, the total of an item row of the item's own
   * department is exactly the item's own count.
   */
  lemma {:induction false} ItemRowTotalIsOwnCount(departments: seq<Department>, data: InventoryData, item: Item)
    requires DistinctDepartmentIds(departments)
    requires exists d :: d in departments && d.id == item.category
    ensures ExcelExport.Sum(OwnCounts(departments, data, item)) == NumericCount(data, item.category, item.id)
    decreases |departments|
  {
    var n := |departments| - 1;
    var init := departments[..n];
    var last := departments[n];
    assert OwnCounts(departments, data, item) == OwnCounts(init, data, item) + [OwnCount(last, item, data)];
    if last.id == item.category {
      forall d | d in init
        ensures d.id != item.category
      {
        var i :| 0 <= i < n && init[i] == d;
        assert departments[i] == d;
      }
      OwnCountsZero(init, data, item);
    } else {
      var d :| d in departments && d.id == item.category;
      assert d in init by {
        var i :| 0 <= i <= n && departments[i] == d;
        assert i != n;
        assert init[i] == d;
      }
      assert DistinctDepartmentIds(init) by {
        forall i, j | 0 <= i < j < |init|
          ensures init[i].id != init[j].id
        {
          assert init[i] == departments[i] && init[j] == departments[j];
        }
      }
      ItemRowTotalIsOwnCount(init, data, item);
    }
  }

  /** The row totals of a list of item rows, in order. */
  function RowTotals(departments: seq<Department>, data: InventoryData, items: seq<Item>): (r: seq<real>)
    ensures |r| == |items|
  {
    if items == [] then []
    else RowTotals(departments, data, items[..|items| - 1]) + [ExcelExport.Sum(OwnCounts(departments, data, items[|items| - 1]))]
  }

  /**
   * With distinct department ids, a department's cell in the totals row is
   * the sum of the last cells of the item rows in its section.
   */
  lemma {:induction false} SectionTotalMatchesRows(departments: seq<Department>, data: InventoryData,
                                                    d: Department, own: seq<Item>)
    requires DistinctDepartmentIds(departments) && d in departments
    requires forall item :: item in own ==> item.category == d.id
    ensures ExcelExport.Sum(RowTotals(departments, data, own)) == DepartmentTotal(own, data, d.id)
    decreases |own|
  {
    if own != [] {
      var n := |own| - 1;
      assert forall item :: item in own[..n] ==> item in own;
      SectionTotalMatchesRows(departments, data, d, own[..n]);
      assert own[n] in own;
      ItemRowTotalIsOwnCount(departments, data, own[n]);
      var totals := RowTotals(departments, data, own);
      assert totals[..n] == RowTotals(departments, data, own[..n]);
      ExcelExport.DepartmentTotalStep(own, n, data, d.id);
      assert own[..n + 1] == own;
    }
  }

  /** `updateSummarySheet`: the values written to the summary sheet. */
  method UpdateSummarySheet(departments: seq<Department>, items: seq<Item>, data: InventoryData) returns (values: Sheet)
    ensures values == SummaryValues(departments, items, data)
  {
    var headerRow := SummaryHeader(departments);
    var itemsByCategory := GroupByCategory(departments, items);
    var allRows := BuildSections(departments, itemsByCategory, items, data);
    var totalsRow := BuildTotalsRow(departments, items, data);
    allRows := allRows + [totalsRow];
    values := [headerRow] + allRows;
  }

  /** The `departments.forEach` that pushes each department's section. */
  method BuildSections(departments: seq<Department>, itemsByCategory: map<string, seq<Item>>,
                       items: seq<Item>, data: InventoryData) returns (allRows: Sheet)
    requires forall k :: 0 <= k < |departments| ==> departments[k].id in itemsByCategory
    requires forall id :: id in itemsByCategory ==> itemsByCategory[id] == ItemsIn(items, id)
    ensures allRows == Sections(departments, departments, items, data)
  {
    allRows := [];
    for k := 0 to |departments|
      invariant allRows == Sections(departments[..k], departments, items, data)
    {
      SectionsStep(departments, k, items, data);
      allRows := AppendSection(allRows, departments, departments[k], itemsByCategory[departments[k].id], data);
    }
    assert departments[..|departments|] == departments;
  }

  lemma SectionsStep(departments: seq<Department>, k: nat, items: seq<Item>, data: InventoryData)
    requires k < |departments|
    ensures Sections(departments[..k + 1], departments, items, data)
         == Sections(departments[..k], departments, items, data) + Section(departments[k], departments, items, data)
  {
    assert departments[..k + 1][..k] == departments[..k];
  }

  /** One department's turn: its section row, its item rows, a blank row. */
  method AppendSection(allRows: Sheet, departments: seq<Department>, dept: Department, deptItems: seq<Item>,
                       data: InventoryData) returns (rows: Sheet)
    ensures rows == allRows + ([SectionRow(dept)] + ItemRows(departments, data, deptItems) + [BlankRow])
  {
    rows := allRows + [SectionRow(dept)];
    rows := AppendItemRows(rows, departments, data, deptItems);
    rows := rows + [BlankRow];
  }

  /** `itemsByCategory[dept.id].forEach(...)`: one row pushed per item. */
  method AppendItemRows(allRows: Sheet, departments: seq<Department>, data: InventoryData, deptItems: seq<Item>)
    returns (rows: Sheet)
    ensures rows == allRows + ItemRows(departments, data, deptItems)
  {
    rows := allRows;
    for j := 0 to |deptItems|
      invariant rows == allRows + ItemRows(departments, data, deptItems[..j])
    {
      var row := BuildItemRow(departments, data, deptItems[j]);
      ItemRowsStep(allRows, departments, data, deptItems, j);
      rows := rows + [row];
    }
    assert deptItems[..|deptItems|] == deptItems;
  }

  lemma ItemRowsStep(head: Sheet, departments: seq<Department>, data: InventoryData, items: seq<Item>, j: nat)
    requires j < |items|
    ensures head + ItemRows(departments, data, items[..j + 1])
         == head + ItemRows(departments, data, items[..j]) + [ItemRow(departments, data, items[j])]
  {
    assert items[..j + 1][..j] == items[..j];
  }

  /** The inner `departments.forEach` for one item: the cells, with the running `totalCount`. */
  method BuildItemRow(departments: seq<Department>, data: InventoryData, item: Item) returns (row: SheetRow)
    ensures row == ItemRow(departments, data, item)
  {
    row := [Str(item.name)];
    var totalCount := 0.0;
    for m := 0 to |departments|
      invariant row == [Str(item.name)] + ExcelExport.Nums(OwnCounts(departments[..m], data, item))
      invariant totalCount == ExcelExport.Sum(OwnCounts(departments[..m], data, item))
    {
      var d := departments[m];
      var count := if d.id == item.category then NumericCount(data, d.id, item.id) else 0.0;
      OwnCountsStep(departments, m, data, item);
      row := row + [Num(count)];
      totalCount := totalCount + count;
    }
    assert departments[..|departments|] == departments;
    row := row + [Num(totalCount)];
  }

  lemma OwnCountsStep(departments: seq<Department>, m: nat, data: InventoryData, item: Item)
    requires m < |departments|
    ensures var count := OwnCount(departments[m], item, data);
      && ExcelExport.Sum(OwnCounts(departments[..m + 1], data, item)) == ExcelExport.Sum(OwnCounts(departments[..m], data, item)) + count
      && [Str(item.name)] + ExcelExport.Nums(OwnCounts(departments[..m + 1], data, item))
         == [Str(item.name)] + ExcelExport.Nums(OwnCounts(departments[..m], data, item)) + [Num(count)]
  {
    var after := OwnCounts(departments[..m + 1], data, item);
    assert departments[..m + 1][..m] == departments[..m];
    assert after[..|after| - 1] == OwnCounts(departments[..m], data, item);
    var cells := ExcelExport.Nums(OwnCounts(departments[..m], data, item));
    assert [Str(item.name)] + (cells + [Num(OwnCount(departments[m], item, data))])
        == [Str(item.name)] + cells + [Num(OwnCount(departments[m], item, data))];
  }

  /** The totals row: the per-department totals, then the grand total. */
  method BuildTotalsRow(departments: seq<Department>, items: seq<Item>, data: InventoryData) returns (totalsRow: SheetRow)
    ensures totalsRow == TotalsRow(departments, items, data)
  {
    var departmentTotals;
    totalsRow, departmentTotals := BuildTotals(departments, items, data);
    var grandTotal := SumInOrder(departmentTotals);
    totalsRow := totalsRow + [Num(grandTotal)];
  }

  /** The totals loop: each department's `deptTotal`, pushed to both `departmentTotals` and `totalsRow`. */
  method BuildTotals(departments: seq<Department>, items: seq<Item>, data: InventoryData)
    returns (totalsRow: SheetRow, departmentTotals: seq<real>)
    ensures departmentTotals == CategoryTotals(departments, items, data)
    ensures totalsRow == [Str("ИТОГО")] + ExcelExport.Nums(departmentTotals)
  {
    totalsRow := [Str("ИТОГО")];
    departmentTotals := [];
    for k := 0 to |departments|
      invariant departmentTotals == CategoryTotals(departments[..k], items, data)
      invariant totalsRow == [Str("ИТОГО")] + ExcelExport.Nums(departmentTotals)
    {
      var deptTotal := CategoryTotal(items, data, departments[k].id);
      CategoryTotalsStep(departments, k, items, data);
      NumsStep(departmentTotals, deptTotal);
      departmentTotals := departmentTotals + [deptTotal];
      totalsRow := totalsRow + [Num(deptTotal)];
    }
    assert departments[..|departments|] == departments;
  }

  lemma CategoryTotalsStep(departments: seq<Department>, k: nat, items: seq<Item>, data: InventoryData)
    requires k < |departments|
    ensures CategoryTotals(departments[..k + 1], items, data)
         == CategoryTotals(departments[..k], items, data)
            + [DepartmentTotal(ItemsIn(items, departments[k].id), data, departments[k].id)]
  {
    assert departments[..k + 1][..k] == departments[..k];
  }

  lemma NumsStep(xs: seq<real>, x: real)
    ensures [Str("ИТОГО")] + ExcelExport.Nums(xs + [x]) == [Str("ИТОГО")] + ExcelExport.Nums(xs) + [Num(x)]
  {
    assert (xs + [x])[..|xs|] == xs;
  }

  /** `items.filter(category).forEach(... deptTotal += count)`. */
  method CategoryTotal(items: seq<Item>, data: InventoryData, d: string) returns (deptTotal: real)
    ensures deptTotal == DepartmentTotal(ItemsIn(items, d), data, d)
  {
    var own := ItemsIn(items, d);
    deptTotal := 0.0;
    for r := 0 to |own|
      invariant deptTotal == DepartmentTotal(own[..r], data, d)
    {
      ExcelExport.DepartmentTotalStep(own, r, data, d);
      deptTotal := deptTotal + NumericCount(data, d, own[r].id);
    }
    assert own[..|own|] == own;
  }

  /** `reduce((sum, current) => sum + current, 0)`. */
  method SumInOrder(xs: seq<real>) returns (total: real)
    ensures total == ExcelExport.Sum(xs)
  {
    total := 0.0;
    for k := 0 to |xs|
      invariant total == ExcelExport.Sum(xs[..k])
    {
      assert xs[..k + 1][..k] == xs[..k];
      total := total + xs[k];
    }
    assert xs[..|xs|] == xs;
  }

  // ---------------------------------------------------------------------------
  // The whole sync
  // ---------------------------------------------------------------------------

  /** One `values.update` call: the target range and the values written. */
  datatype Update = Update(range: string, values: Sheet)

  function DepartmentUpdate(department: Department, items: seq<Item>, data: InventoryData,
                            formatStamp: Value -> string): Update {
    Update(department.name + "!A1", DepartmentValues(department, items, data, formatStamp))
  }

  /** The update builder for one sync, as a function of the department. */
  function UpdateOf(items: seq<Item>, data: InventoryData, formatStamp: Value -> string): Department -> Update {
    (d: Department) => DepartmentUpdate(d, items, data, formatStamp)
  }

  /**
   * `syncWithGoogleSheets` after sign-in: the missing sheets are added, each
   * department's sheet is written in list order, and the summary is written
   * last.
   */
  method SyncWithGoogleSheets(existing: seq<string>, departments: seq<Department>, items: seq<Item>,
                              data: InventoryData, formatStamp: Value -> string)
    returns (added: seq<string>, updates: seq<Update>)
    ensures added == MissingSheets(existing, departments)
    ensures updates == Map(departments, UpdateOf(items, data, formatStamp))
                       + [Update(SummaryTitle + "!A1", SummaryValues(departments, items, data))]
  {
    added := EnsureSheetsExist(existing, departments);
    updates := [];
    for k := 0 to |departments|
      invariant updates == Map(departments[..k], UpdateOf(items, data, formatStamp))
    {
      MapStep(departments, UpdateOf(items, data, formatStamp), k);
      updates := updates + [DepartmentUpdate(departments[k], items, data, formatStamp)];
    }
    assert departments[..|departments|] == departments;
    var summary := UpdateSummarySheet(departments, items, data);
    updates := updates + [Update(SummaryTitle + "!A1", summary)];
  }
}
