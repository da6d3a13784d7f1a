/**
 * The spreadsheet export: one workbook per department, each holding one
 * inventory sheet laid out as an 8-row header, one row per item and a 7-row
 * footer; the (unused) summary sheet over all departments; and the row ranges
 * the styling pass treats as header, data and footer.
 *
 * Cells are the `string | number` values of the row arrays, modelled with
 * `Domain.Value`. Dates arrive as already formatted text.
 */
module ExcelExport {
  import opened Wrappers
  import opened Domain
  import Strings

  type SheetRow = seq<Value>
  type Sheet = seq<SheetRow>

  // ---------------------------------------------------------------------------
  // Department sheet
  // ---------------------------------------------------------------------------

  /** A template literal renders a missing city as `undefined`. */
  function CityText(city: Option<string>): string {
    match city
    case Some(c) => c
    case None => "undefined"
  }

  /** `Той самий Баранчик ${city}`. */
  function Organisation(city: Option<string>): string {
    "Той самий Баранчик " + CityText(city)
  }

  /** The organisation line names the city, or reads `undefined` without one. */
  lemma OrganisationNamesCity(city: Option<string>)
    ensures Strings.StartsWith(Organisation(city), "Той самий Баранчик ")
    ensures city.Some? ==> Organisation(city)[|"Той самий Баранчик "|..] == city.value
    ensures city.None? ==> Organisation(city) == "Той самий Баранчик undefined"
  {
    Strings.StartsWithConcat("Той самий Баранчик ", CityText(city));
  }

  /** The 8 header rows; `dateText` is `new Date().toLocaleDateString()`. */
  function Header(city: Option<string>, department: Department, dateText: string): Sheet {
    [
      [Str("Організація:"), Str(Organisation(city))],
      [Str("Бланк інвентаризації"), Str("")],
      [Str(""), Str("")],
      [Str("Дата:"), Str(dateText)],
      [Str("Склад"), Str(Organisation(city) + " (" + department.name + ")")],
      [Str(""), Str("")],
      [Str("Товар"), Str(""), Str(""), Str("Од. вим."), Str("Залишок фактичний"), Str("Позначки")],
      [Str("Код"), Str("Штрих-код"), Str("Найменування"), Str(""), Str(""), Str("")]
    ]
  }

  /** `item.id.replace("item-", "")`: the id without its first `item-`. */
  function ExportCode(id: string): (code: string)
    ensures Strings.IndexOf(id, "item-").None? ==> code == id
    ensures Strings.IndexOf(id, "item-").Some? ==>
      var k := Strings.IndexOf(id, "item-").value;
      code == id[..k] + id[k + 5..]
  {
    Strings.ReplaceFirst(id, "item-", "")
  }

  /** An id made by `addNewItem` exports as its creation time. */
  lemma ExportCodeOfGeneratedId(now: nat)
    ensures ExportCode("item-" + Strings.NatToString(now)) == Strings.NatToString(now)
  {
    Strings.StartsWithConcat("item-", Strings.NatToString(now));
    Strings.ReplacePrefix("item-" + Strings.NatToString(now), "item-");
  }

  /** `getUnitForHouseholdItem`: the first unit marker found in the name, in order. */
  function HouseholdUnit(name: string): (unit: string)
    ensures Strings.Contains(name, "(л)") ==> unit == "л."
    ensures !Strings.Contains(name, "(л)") && Strings.Contains(name, "(кг)") ==> unit == "кг"
    ensures !Strings.Contains(name, "(л)") && !Strings.Contains(name, "(кг)") ==> unit == "шт"
  {
    if Strings.Contains(name, "(л)") then "л."
    else if Strings.Contains(name, "(кг)") then "кг"
    else if Strings.Contains(name, "(уп)") then "шт"
    else if Strings.Contains(name, "(рул)") then "шт"
    else "шт"
  }

  /** The unit column: household goods (`dept-2`) by name, everything else in pieces. */
  function UnitFor(departmentId: string, name: string): (unit: string)
    ensures departmentId != "dept-2" ==> unit == "шт"
    ensures unit == "л." || unit == "кг" || unit == "шт"
  {
    if departmentId == "dept-2" then HouseholdUnit(name) else "шт"
  }

  /** One item row: code, empty barcode, name, unit, numeric count (else 0), empty note. */
  function DataRow(department: Department, item: Item, data: InventoryData): SheetRow {
    [Str(ExportCode(item.id)), Str(""), Str(item.name), Str(UnitFor(department.id, item.name)),
     Num(NumericCount(data, department.id, item.id)), Str("")]
  }

  /** `departmentItems.map(...)`. */
  function DataRows(department: Department, items: seq<Item>, data: InventoryData): (rows: Sheet)
    ensures |rows| == |items|
    ensures forall k :: 0 <= k < |rows| ==> rows[k] == DataRow(department, items[k], data)
  {
    if items == [] then [] else [DataRow(department, items[0], data)] + DataRows(department, items[1..], data)
  }

  const BlankRow: SheetRow := [Str(""), Str(""), Str(""), Str(""), Str(""), Str("")]

  const SignatureRow: SheetRow := [
    Str("Інвентаризацію провів: ______________________________"), Str(""), Str(""),
    Str("Інвентаризацію прийняв: ____________________________"), Str(""), Str("")
  ]

  /** Six blank six-cell rows, then one row holding the two signature cells. */
  function Footer(): Sheet {
    [BlankRow, BlankRow, BlankRow, BlankRow, BlankRow, BlankRow, SignatureRow]
  }

  /** `wsData = [...header, ...rows, ...footer]`. */
  function DepartmentSheet(city: Option<string>, department: Department, items: seq<Item>,
                           data: InventoryData, dateText: string): Sheet {
    Header(city, department, dateText) + DataRows(department, items, data) + Footer()
  }

  /** A department sheet has 8 header rows, one row per item and 7 footer rows. */
  lemma DepartmentSheetLength(city: Option<string>, department: Department, items: seq<Item>,
                              data: InventoryData, dateText: string)
    ensures |DepartmentSheet(city, department, items, data, dateText)| == 8 + |items| + 7
  {
  }

  /**
   * The header names the organisation (and so the city) on its first row,
   * the organisation and the department as the store on row 5, and the
   * column titles on row 8.
   */
  lemma DepartmentSheetHeader(city: Option<string>, department: Department, items: seq<Item>,
                              data: InventoryData, dateText: string)
    ensures var ws := DepartmentSheet(city, department, items, data, dateText);
      && |ws| > 8
      && ws[0] == [Str("Організація:"), Str(Organisation(city))]
      && ws[4] == [Str("Склад"), Str(Organisation(city) + " (" + department.name + ")")]
      && ws[7] == [Str("Код"), Str("Штрих-код"), Str("Найменування"), Str(""), Str(""), Str("")]
  {
    var h := Header(city, department, dateText);
    var ws := DepartmentSheet(city, department, items, data, dateText);
    assert ws == h + (DataRows(department, items, data) + Footer());
    assert ws[0] == h[0] && ws[4] == h[4] && ws[7] == h[7];
  }

  /**
   * Below the header come exactly the items, in order, one row each with the
   * code, an empty barcode, the name, the unit, the numeric count and an
   * empty note.
   */
  lemma DepartmentSheetItems(city: Option<string>, department: Department, items: seq<Item>,
                             data: InventoryData, dateText: string, k: nat)
    requires k < |items|
    ensures var ws := DepartmentSheet(city, department, items, data, dateText);
      && 8 + k < |ws|
      && var row := ws[8 + k];
      && |row| == 6 && row[1] == Str("") && row[5] == Str("")
      && row[0] == Str(ExportCode(items[k].id)) && row[2] == Str(items[k].name)
      && row[3] == Str(UnitFor(department.id, items[k].name))
      && row[4] == Num(NumericCount(data, department.id, items[k].id))
  {
    var rows := DataRows(department, items, data);
    var ws := DepartmentSheet(city, department, items, data, dateText);
    assert ws == (Header(city, department, dateText) + rows) + Footer();
    assert ws[8 + k] == rows[k];
  }

  /** The sheet ends with six blank rows and the signature row. */
  lemma DepartmentSheetFooter(city: Option<string>, department: Department, items: seq<Item>,
                              data: InventoryData, dateText: string)
    ensures var ws := DepartmentSheet(city, department, items, data, dateText);
      && |ws| == 8 + |items| + 7
      && (forall k :: 8 + |items| <= k < 8 + |items| + 6 ==> ws[k] == BlankRow)
      && ws[8 + |items| + 6] == SignatureRow
  {
    var ws := DepartmentSheet(city, department, items, data, dateText);
    var top := Header(city, department, dateText) + DataRows(department, items, data);
    assert |top| == 8 + |items|;
    assert ws == top + Footer();
    forall k | 8 + |items| <= k < 8 + |items| + 6
      ensures ws[k] == BlankRow
    {
      assert ws[k] == Footer()[k - |top|];
    }
    assert ws[8 + |items| + 6] == Footer()[6];
  }

  /** `Інвентаризація_${dept.name}_${currentDate}.xlsx`, the date as `YYYY-MM-DD`. */
  function FileName(departmentName: string, isoDate: string): string {
    "Інвентаризація_" + departmentName + "_" + isoDate + ".xlsx"
  }

  /** The file name starts with the report title and ends with the `.xlsx` extension. */
  lemma FileNameShape(departmentName: string, isoDate: string)
    ensures var f := FileName(departmentName, isoDate);
      && Strings.StartsWith(f, "Інвентаризація_")
      && f[|"Інвентаризація_"|..|"Інвентаризація_"| + |departmentName|] == departmentName
      && f[|f| - 5..] == ".xlsx"
  {
    var f := FileName(departmentName, isoDate);
    var rest := departmentName + "_" + isoDate + ".xlsx";
    assert f == "Інвентаризація_" + rest;
    Strings.StartsWithConcat("Інвентаризація_", rest);
  }

  /** A generated file: its name and its single sheet, named after the department. */
  datatype Workbook = Workbook(fileName: string, sheetName: string, sheet: Sheet)

  /** The workbook exported for one department. */
  function DepartmentWorkbook(department: Department, items: seq<Item>, data: InventoryData,
                              city: Option<string>, isoDate: string, dateText: string): Workbook
  {
    Workbook(FileName(department.name, isoDate), department.name,
             DepartmentSheet(city, department, ItemsIn(items, department.id), data, dateText))
  }

  /** The workbook builder for one export, as a function of the department. */
  function BookOf(items: seq<Item>, data: InventoryData, city: Option<string>, isoDate: string,
                  dateText: string): Department -> Workbook {
    (d: Department) => DepartmentWorkbook(d, items, data, city, isoDate, dateText)
  }

  /**
   * `exportToExcel`: groups the items by department, then builds one workbook
   * per department, in list order. Delivery (download or share) is not modelled.
   */
  method ExportToExcel(departments: seq<Department>, items: seq<Item>, data: InventoryData,
                       city: Option<string>, isoDate: string, dateText: string)
    returns (books: seq<Workbook>)
    ensures books == Map(departments, BookOf(items, data, city, isoDate, dateText))
  {
    var itemsByCategory := GroupByCategory(departments, items);
    books := [];
    for k := 0 to |departments|
      invariant books == Map(departments[..k], BookOf(items, data, city, isoDate, dateText))
    {
      var book := BuildWorkbook(departments[k], itemsByCategory, items, data, city, isoDate, dateText);
      MapStep(departments, BookOf(items, data, city, isoDate, dateText), k);
      books := books + [book];
    }
    assert departments[..|departments|] == departments;
  }

  /** One turn of the export loop: look the department's items up and build its workbook. */
  method BuildWorkbook(dept: Department, itemsByCategory: map<string, seq<Item>>, items: seq<Item>,
                       data: InventoryData, city: Option<string>, isoDate: string, dateText: string)
    returns (book: Workbook)
    requires dept.id in itemsByCategory && itemsByCategory[dept.id] == ItemsIn(items, dept.id)
    ensures book == BookOf(items, data, city, isoDate, dateText)(dept)
  {
    var departmentItems := if dept.id in itemsByCategory then itemsByCategory[dept.id] else [];
    var ws := DepartmentSheet(city, dept, departmentItems, data, dateText);
    book := Workbook(FileName(dept.name, isoDate), dept.name, ws);
  }

  /**
   * Each exported sheet lists exactly the department's items, in list order,
   * each as often as it occurs in the catalogue.
   */
  lemma ExportedItemsAreTheDepartments(department: Department, items: seq<Item>, data: InventoryData,
                                       city: Option<string>, dateText: string)
    ensures var sheetItems := ItemsIn(items, department.id);
      && (forall x :: x in sheetItems <==> x in items && x.category == department.id)
      && IsSubsequence(sheetItems, items)
      && |DepartmentSheet(city, department, sheetItems, data, dateText)| == 15 + |sheetItems|
  {
    ItemsInSpec(items, department.id);
    DepartmentSheetLength(city, department, ItemsIn(items, department.id), data, dateText);
  }

  /** A sheet reads only its own department's numeric counts. */
  lemma SheetReadsOwnDepartment(city: Option<string>, department: Department, items: seq<Item>,
                                data: InventoryData, other: InventoryData, dateText: string)
    requires forall i :: NumericCount(data, department.id, i) == NumericCount(other, department.id, i)
    ensures DepartmentSheet(city, department, items, data, dateText) == DepartmentSheet(city, department, items, other, dateText)
  {
    var a := DataRows(department, items, data);
    var b := DataRows(department, items, other);
    assert forall k :: 0 <= k < |items| ==> a[k] == b[k];
    assert a == b;
  }

  /** A crockery item with 5 pieces counted. */
  lemma CrockeryRowExample()
    ensures DataRow(Department("dept-1", "Посуда"), Item("item-001", "Тарілка", "dept-1"),
                    map["dept-1" := map["item-001" := Num(5.0)]])
         == [Str("001"), Str(""), Str("Тарілка"), Str("шт"), Num(5.0), Str("")]
  {
    assert Strings.OccursAt("item-", "item-001", 0);
    assert Strings.IndexOf("item-001", "item-") == Some(0);
  }

  /** A pattern with a character the text lacks does not occur in it. */
  lemma AbsentCharNotContained(s: string, pat: string, i: nat)
    requires i < |pat| && pat[i] !in s
    ensures !Strings.Contains(s, pat)
  {
  }

  /** Household names: litres are recognised, packs fall back to pieces. */
  lemma HouseholdUnitExamples()
    ensures UnitFor("dept-2", "Олія (л)") == "л."
    ensures UnitFor("dept-2", "Серветки (уп)") == "шт"
    ensures UnitFor("dept-1", "Олія (л)") == "шт"
  {
    assert Strings.OccursAt("(л)", "Олія (л)", 5);
    AbsentCharNotContained("Серветки (уп)", "(л)", 1);
    AbsentCharNotContained("Серветки (уп)", "(кг)", 2);
  }

  // ---------------------------------------------------------------------------
  // Summary sheet
  // ---------------------------------------------------------------------------

  /** Sum of a list of numbers, added left to right. */
  function Sum(xs: seq<real>): real {
    if xs == [] then 0.0 else Sum(xs[..|xs| - 1]) + xs[|xs| - 1]
  }

  function Nums(xs: seq<real>): (r: SheetRow)
    ensures |r| == |xs|
  {
    if xs == [] then [] else Nums(xs[..|xs| - 1]) + [Num(xs[|xs| - 1])]
  }

  /** Each cell of `Nums(xs)` is the number at the same position. */
  lemma {:induction false} NumsCells(xs: seq<real>)
    ensures forall k :: 0 <= k < |xs| ==> Nums(xs)[k] == Num(xs[k])
    decreases |xs|
  {
    if xs != [] {
      NumsCells(xs[..|xs| - 1]);
    }
  }

  /** The numeric count of `item` in each department, in department order. */
  function ItemCounts(departments: seq<Department>, data: InventoryData, item: Item): (r: seq<real>)
    ensures |r| == |departments|
    ensures forall k :: 0 <= k < |r| ==> r[k] == NumericCount(data, departments[k].id, item.id)
  {
    if departments == [] then []
    else ItemCounts(departments[..|departments| - 1], data, item) + [NumericCount(data, departments[|departments| - 1].id, item.id)]
  }

  /** The column totals: each department's total over all items. */
  function DepartmentTotals(departments: seq<Department>, items: seq<Item>, data: InventoryData): (r: seq<real>)
    ensures |r| == |departments|
    ensures forall k :: 0 <= k < |r| ==> r[k] == DepartmentTotal(items, data, departments[k].id)
  {
    if departments == [] then []
    else DepartmentTotals(departments[..|departments| - 1], items, data) + [DepartmentTotal(items, data, departments[|departments| - 1].id)]
  }

  function Names(departments: seq<Department>): (r: SheetRow)
    ensures |r| == |departments| && forall k :: 0 <= k < |r| ==> r[k] == Str(departments[k].name)
  {
    if departments == [] then [] else [Str(departments[0].name)] + Names(departments[1..])
  }

  function SummaryHeader(departments: seq<Department>): SheetRow {
    [Str("Найменування")] + Names(departments) + [Str("Итого")]
  }

  /** An item row: the name, its count per department, and the sum of those counts. */
  function SummaryItemRow(departments: seq<Department>, data: InventoryData, item: Item): SheetRow {
    [Str(item.name)] + Nums(ItemCounts(departments, data, item)) + [Num(Sum(ItemCounts(departments, data, item)))]
  }

  /**
   * An item row holds the name, then the item's numeric count under each
   * department in order, then the sum of those counts.
   */
  lemma SummaryItemRowCells(departments: seq<Department>, data: InventoryData, item: Item)
    ensures var row := SummaryItemRow(departments, data, item);
      && |row| == |departments| + 2 && row[0] == Str(item.name)
      && (forall k :: 0 <= k < |departments| ==> row[k + 1] == Num(NumericCount(data, departments[k].id, item.id)))
      && row[|departments| + 1] == Num(Sum(ItemCounts(departments, data, item)))
  {
    NumsCells(ItemCounts(departments, data, item));
  }

  /** The totals row: each column's total, then the sum of the column totals. */
  function SummaryTotalsRow(departments: seq<Department>, items: seq<Item>, data: InventoryData): SheetRow {
    [Str("ИТОГО")] + Nums(DepartmentTotals(departments, items, data)) + [Num(Sum(DepartmentTotals(departments, items, data)))]
  }

  /** `row[idx + 1] as number`: the numeric content of a cell. */
  function CellNumber(v: Value): real {
    match v
    case Num(n) => n
    case Str(_) => 0.0
  }

  /**
   * `createSummarySheet`: the header, one row per item built with a running
   * total, and the totals row whose column sums are read back from the item
   * rows already written.
   */
  method CreateSummarySheet(departments: seq<Department>, items: seq<Item>, data: InventoryData)
    returns (wsData: Sheet)
    ensures |wsData| == |items| + 2
    ensures wsData[0] == SummaryHeader(departments)
    ensures forall k :: 0 <= k < |items| ==> wsData[k + 1] == SummaryItemRow(departments, data, items[k])
    ensures wsData[|items| + 1] == SummaryTotalsRow(departments, items, data)
  {
    wsData := [SummaryHeader(departments)];
    for k := 0 to |items|
      invariant |wsData| == k + 1 && wsData[0] == SummaryHeader(departments)
      invariant forall j :: 0 <= j < k ==> wsData[j + 1] == SummaryItemRow(departments, data, items[j])
    {
      var row, total := ItemRow(departments, data, items[k]);
      wsData := wsData + [row + [Num(total)]];
    }
    var depTotals: seq<real> := [];
    for idx := 0 to |departments|
      invariant depTotals == DepartmentTotals(departments[..idx], items, data)
    {
      SummaryColumn(wsData, departments, items, data, idx);
      var depTotal := ColumnTotal(wsData, departments, items, data, idx);
      DepartmentTotalsStep(departments, idx, items, data);
      depTotals := depTotals + [depTotal];
    }
    assert departments[..|departments|] == departments;
    wsData := wsData + [[Str("ИТОГО")] + Nums(depTotals) + [Num(Sum(depTotals))]];
  }

  /** The inner loop over departments for one item: the cells and the running total. */
  method ItemRow(departments: seq<Department>, data: InventoryData, item: Item) returns (row: SheetRow, total: real)
    ensures row + [Num(total)] == SummaryItemRow(departments, data, item)
  {
    row := [Str(item.name)];
    total := 0.0;
    for m := 0 to |departments|
      invariant row == [Str(item.name)] + Nums(ItemCounts(departments[..m], data, item))
      invariant total == Sum(ItemCounts(departments[..m], data, item))
    {
      var count := NumericCount(data, departments[m].id, item.id);
      ItemCountsStep(departments, m, data, item);
      row := row + [Num(count)];
      total := total + count;
    }
    assert departments[..|departments|] == departments;
  }

  /** Extending the department prefix by one adds one cell and one term. */
  lemma ItemCountsStep(departments: seq<Department>, m: nat, data: InventoryData, item: Item)
    requires m < |departments|
    ensures var count := NumericCount(data, departments[m].id, item.id);
      && Nums(ItemCounts(departments[..m + 1], data, item)) == Nums(ItemCounts(departments[..m], data, item)) + [Num(count)]
      && Sum(ItemCounts(departments[..m + 1], data, item)) == Sum(ItemCounts(departments[..m], data, item)) + count
      && [Str(item.name)] + Nums(ItemCounts(departments[..m + 1], data, item))
         == [Str(item.name)] + Nums(ItemCounts(departments[..m], data, item)) + [Num(count)]
  {
    var after := ItemCounts(departments[..m + 1], data, item);
    assert departments[..m + 1][..m] == departments[..m];
    assert after[..|after| - 1] == ItemCounts(departments[..m], data, item);
    var cells := Nums(ItemCounts(departments[..m], data, item));
    assert [Str(item.name)] + (cells + [Num(NumericCount(data, departments[m].id, item.id))])
        == [Str(item.name)] + cells + [Num(NumericCount(data, departments[m].id, item.id))];
  }

  lemma DepartmentTotalStep(items: seq<Item>, r: nat, data: InventoryData, d: string)
    requires r < |items|
    ensures DepartmentTotal(items[..r + 1], data, d) == DepartmentTotal(items[..r], data, d) + NumericCount(data, d, items[r].id)
  {
    assert items[..r + 1] == items[..r] + [items[r]];
    DepartmentTotalAppend(items[..r], [items[r]], data, d);
  }

  lemma DepartmentTotalsStep(departments: seq<Department>, idx: nat, items: seq<Item>, data: InventoryData)
    requires idx < |departments|
    ensures DepartmentTotals(departments[..idx + 1], items, data)
         == DepartmentTotals(departments[..idx], items, data) + [DepartmentTotal(items, data, departments[idx].id)]
  {
    assert departments[..idx + 1][..idx] == departments[..idx];
  }

  /** Column `idx + 1` of the item rows holds department `idx`'s count of each item. */
  lemma SummaryColumn(wsData: Sheet, departments: seq<Department>, items: seq<Item>, data: InventoryData, idx: nat)
    requires idx < |departments| && |wsData| == |items| + 1
    requires forall k :: 0 <= k < |items| ==> wsData[k + 1] == SummaryItemRow(departments, data, items[k])
    ensures forall r :: 1 <= r < |wsData| ==>
      |wsData[r]| > idx + 1 && wsData[r][idx + 1] == Num(NumericCount(data, departments[idx].id, items[r - 1].id))
  {
    forall r | 1 <= r < |wsData|
      ensures |wsData[r]| > idx + 1 && wsData[r][idx + 1] == Num(NumericCount(data, departments[idx].id, items[r - 1].id))
    {
      assert wsData[(r - 1) + 1] == SummaryItemRow(departments, data, items[r - 1]);
      SummaryItemRowCells(departments, data, items[r - 1]);
    }
  }

  /** `wsData.slice(1).reduce((sum, row) => sum + row[idx + 1], 0)` over the item rows. */
  method ColumnTotal(wsData: Sheet, departments: seq<Department>, items: seq<Item>, data: InventoryData, idx: nat)
    returns (depTotal: real)
    requires idx < |departments| && |wsData| == |items| + 1
    requires forall r :: 1 <= r < |wsData| ==>
      |wsData[r]| > idx + 1 && wsData[r][idx + 1] == Num(NumericCount(data, departments[idx].id, items[r - 1].id))
    ensures depTotal == DepartmentTotal(items, data, departments[idx].id)
  {
    depTotal := 0.0;
    for r := 1 to |wsData|
      invariant depTotal == DepartmentTotal(items[..r - 1], data, departments[idx].id)
    {
      var cell := wsData[r][idx + 1];
      DepartmentTotalStep(items, r - 1, data, departments[idx].id);
      depTotal := depTotal + CellNumber(cell);
    }
    assert items[..|wsData| - 1] == items;
  }

  /** A list whose entries are the sums of two others' sums to their sums. */
  lemma {:induction false} SumPointwise(a: seq<real>, b: seq<real>, c: seq<real>)
    requires |a| == |b| == |c|
    requires forall k :: 0 <= k < |c| ==> c[k] == a[k] + b[k]
    ensures Sum(c) == Sum(a) + Sum(b)
    decreases |c|
  {
    if c != [] {
      var n := |c| - 1;
      assert forall k :: 0 <= k < n ==> c[..n][k] == a[..n][k] + b[..n][k];
      SumPointwise(a[..n], b[..n], c[..n]);
    }
  }

  lemma {:induction false} SumOfZeros(xs: seq<real>)
    requires forall k :: 0 <= k < |xs| ==> xs[k] == 0.0
    ensures Sum(xs) == 0.0
    decreases |xs|
  {
    if xs != [] {
      SumOfZeros(xs[..|xs| - 1]);
    }
  }

  /** The sum of the item rows' last cells. */
  function RowTotalsSum(departments: seq<Department>, items: seq<Item>, data: InventoryData): real {
    if items == [] then 0.0
    else Sum(ItemCounts(departments, data, items[0])) + RowTotalsSum(departments, items[1..], data)
  }

  /**
   * The grand total (the sum of the column totals) equals the sum of the
   * per-item totals: adding by column or by row gives the same figure.
   */
  lemma {:induction false} GrandTotalByRows(departments: seq<Department>, items: seq<Item>, data: InventoryData)
    ensures Sum(DepartmentTotals(departments, items, data)) == RowTotalsSum(departments, items, data)
    decreases |items|
  {
    if items == [] {
      SumOfZeros(DepartmentTotals(departments, items, data));
    } else {
      GrandTotalByRows(departments, items[1..], data);
      var head := ItemCounts(departments, data, items[0]);
      var rest := DepartmentTotals(departments, items[1..], data);
      var all := DepartmentTotals(departments, items, data);
      forall k | 0 <= k < |departments|
        ensures all[k] == head[k] + rest[k]
      {
        assert all[k] == DepartmentTotal(items, data, departments[k].id);
      }
      SumPointwise(head, rest, all);
    }
  }

  // ---------------------------------------------------------------------------
  // Row ranges of the styling pass
  // ---------------------------------------------------------------------------

  /** The style a row of the department sheet ends up with. */
  datatype RowStyle =
    | Unstyled
    | HeaderStyle(bold: bool)   // left-aligned header rows
    | ColumnHeaderStyle         // bold, grey fill, centred, thin borders
    | DataStyle                 // bordered, name column left, count column "0.00"
    | FooterStyle               // left-aligned

  /**
   * The final style of row `r` after the four passes, for a sheet with
   * `headerRows` header rows and `dataRows` data rows: later passes win.
   */
  function StyleOfRow(r: nat, headerRows: nat, dataRows: nat): RowStyle {
    if r >= headerRows + dataRows then FooterStyle
    else if r >= headerRows then DataStyle
    else if r == 7 then ColumnHeaderStyle
    else HeaderStyle(false)
  }

  /**
   * `applyDepartmentStyles`, one entry per row of the sheet: the header pass,
   * the pass over row 7, the data pass and the footer pass, each over the rows
   * that exist.
   */
  method ApplyDepartmentStyles(styles: array<RowStyle>, headerRowCount: nat, dataRowCount: nat)
    modifies styles
    ensures forall r :: 0 <= r < styles.Length ==> styles[r] == StyleOfRow(r, headerRowCount, dataRowCount)
  {
    var rowCount := styles.Length;
    for r := 0 to headerRowCount
      invariant forall q :: 0 <= q < rowCount && q < r ==> styles[q] == HeaderStyle(q == 7)
    {
      if r < rowCount {
        styles[r] := HeaderStyle(r == 7);
      }
    }
    if 7 < rowCount {
      styles[7] := ColumnHeaderStyle;
    }
    for r := headerRowCount to headerRowCount + dataRowCount
      invariant forall q :: 0 <= q < rowCount && q < headerRowCount ==> styles[q] == StyleOfRow(q, headerRowCount, dataRowCount)
      invariant forall q :: headerRowCount <= q < r && q < rowCount ==> styles[q] == DataStyle
    {
      if r < rowCount {
        styles[r] := DataStyle;
      }
    }
    var footerStart := if headerRowCount + dataRowCount <= rowCount then headerRowCount + dataRowCount else rowCount;
    for r := footerStart to rowCount
      invariant forall q :: 0 <= q < footerStart ==> styles[q] == StyleOfRow(q, headerRowCount, dataRowCount)
      invariant forall q :: footerStart <= q < r ==> styles[q] == FooterStyle
    {
      styles[r] := FooterStyle;
    }
  }

  /**
   * On a department sheet the styling pass puts rows 0-6 in the header
   * style, row 7 (the column titles) in the column-header style, exactly the
   * item rows in the data style, and the 7 footer rows in the footer style.
   */
  lemma DepartmentSheetStyles(n: nat, r: nat)
    requires r < 8 + n + 7
    ensures r < 7 ==> StyleOfRow(r, 8, n) == HeaderStyle(false)
    ensures r == 7 ==> StyleOfRow(r, 8, n) == ColumnHeaderStyle
    ensures StyleOfRow(r, 8, n) == DataStyle <==> 8 <= r < 8 + n
    ensures StyleOfRow(r, 8, n) == FooterStyle <==> 8 + n <= r
  {
  }
}
