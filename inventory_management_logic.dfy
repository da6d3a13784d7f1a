/**
 * `useInventoryManagementLogic`: the per-city variant of the inventory
 * screen. It takes its city from its props (default "Кременчук"), keeps the
 * same tab selection, and exports the selected department with only that
 * department's quantities and with the city named.
 */
module InventoryManagementLogic {
  import opened Wrappers
  import opened Domain
  import ExcelExport
  import InventoryManagement

  const DefaultCity: string := "Кременчук"

  /** The props the hook reads; an absent prop is `None`. */
  datatype Props = Props(city: Option<string>, showBurgerMenu: Option<bool>)

  /** The props after the destructuring defaults. */
  datatype Settings = Settings(city: string, showBurgerMenu: bool)

  /** A given prop is kept; an absent city is "Кременчук" and an absent menu flag is `false`. */
  function ResolveProps(props: Props): (s: Settings)
    ensures props.city.Some? ==> s.city == props.city.value
    ensures props.city.None? ==> s.city == DefaultCity
    ensures s.showBurgerMenu <==> props.showBurgerMenu == Some(true)
  {
    Settings(props.city.GetOr(DefaultCity), props.showBurgerMenu.GetOr(false))
  }

  /** `{ [id]: inventoryData[id] || {} }`: the one department's quantities, or an empty map. */
  function Narrow(data: InventoryData, id: string): InventoryData {
    map[id := if id in data then data[id] else map[]]
  }

  /** The narrowed map has exactly the one key, and reads the same counts for that department. */
  lemma NarrowKeepsDepartment(data: InventoryData, id: string, itemId: string)
    ensures Narrow(data, id).Keys == {id}
    ensures NumericCount(Narrow(data, id), id, itemId) == NumericCount(data, id, itemId)
  {
  }

  /**
   * `handleExportToExcel` of the hook: nothing unless a tab is selected and
   * names a department; then that department alone, every item, the
   * department's own quantities, and the hook's city.
   */
  function HandleExportToExcel(selectedTab: Option<string>, departments: seq<Department>, items: seq<Item>,
                               data: InventoryData, sendToTelegram: bool, city: string)
    : (r: Option<InventoryManagement.ExportCall>)
    ensures r.Some? <==> selectedTab.Some? && selectedTab.value != ""
                          && exists k :: 0 <= k < |departments| && departments[k].id == selectedTab.value
    ensures r.Some? ==> && |r.value.departments| == 1
                        && r.value.departments[0] in departments
                        && r.value.departments[0].id == selectedTab.value
                        && r.value.items == items
                        && r.value.data.Keys == {selectedTab.value}
                        && r.value.sendToTelegram == sendToTelegram && r.value.city == Some(city)
  {
    if selectedTab.None? || selectedTab.value == "" then None
    else match InventoryManagement.FindDepartment(departments, selectedTab.value)
      case None => None
      case Some(d) => Some(InventoryManagement.ExportCall([d], items, Narrow(data, d.id), sendToTelegram, Some(city)))
  }

  /**
   * Narrowing the quantities changes nothing in the exported workbook: it is
   * the selected department's workbook over the full map, with the city in
   * the organisation line.
   */
  lemma ExportNamesCity(selectedTab: Option<string>, departments: seq<Department>, items: seq<Item>,
                        data: InventoryData, sendToTelegram: bool, city: string, isoDate: string, dateText: string)
    requires HandleExportToExcel(selectedTab, departments, items, data, sendToTelegram, city).Some?
    ensures var call := HandleExportToExcel(selectedTab, departments, items, data, sendToTelegram, city).value;
      var books := InventoryManagement.Books(call, isoDate, dateText);
      && books == [ExcelExport.DepartmentWorkbook(call.departments[0], items, data, Some(city), isoDate, dateText)]
      && books[0].sheet[0] == [Str("Організація:"), Str("Той самий Баранчик " + city)]
  {
    var call := HandleExportToExcel(selectedTab, departments, items, data, sendToTelegram, city).value;
    var d := call.departments[0];
    var f := ExcelExport.BookOf(items, call.data, Some(city), isoDate, dateText);
    MapCells(call.departments, f, 0);
    forall i
      ensures NumericCount(call.data, d.id, i) == NumericCount(data, d.id, i)
    {
      NarrowKeepsDepartment(data, d.id, i);
    }
    ExcelExport.SheetReadsOwnDepartment(Some(city), d, ItemsIn(items, d.id), call.data, data, dateText);
    ExcelExport.DepartmentSheetHeader(Some(city), d, ItemsIn(items, d.id), data, dateText);
  }

  /** The hook's own state: its resolved props and the selected tab. */
  class Hook {
    const city: string
    const showBurgerMenu: bool
    var selectedTabKey: Option<string>

    constructor (props: Props)
      ensures Settings(city, showBurgerMenu) == ResolveProps(props)
      ensures selectedTabKey == None
    {
      var settings := ResolveProps(props);
      city := settings.city;
      showBurgerMenu := settings.showBurgerMenu;
      selectedTabKey := None;
    }

    /** The effect on `departments`: the selection returns to the default tab. */
    method DepartmentsChanged(departments: seq<Department>)
      modifies this`selectedTabKey
      ensures selectedTabKey == InventoryManagement.DefaultTab(departments)
    {
      selectedTabKey := InventoryManagement.DefaultTab(departments);
    }

    method SelectTab(key: string)
      modifies this`selectedTabKey
      ensures selectedTabKey == Some(key)
    {
      selectedTabKey := Some(key);
    }

    /** The export exposed to the layout and through the ref: the call made, if any. */
    method ExportCurrent(departments: seq<Department>, items: seq<Item>, data: InventoryData, sendToTelegram: bool)
      returns (call: Option<InventoryManagement.ExportCall>)
      ensures call == HandleExportToExcel(selectedTabKey, departments, items, data, sendToTelegram, city)
    {
      call := None;
      if selectedTabKey.Some? && selectedTabKey.value != "" {
        var selected := InventoryManagement.FindDepartment(departments, selectedTabKey.value);
        if selected.Some? {
          var d := selected.value;
          call := Some(InventoryManagement.ExportCall([d], items, Narrow(data, d.id), sendToTelegram, Some(city)));
        }
      }
    }
  }
}
