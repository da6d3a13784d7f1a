/**
 * The inventory screen rendered by the dashboard: one tab per department,
 * the export of the selected department, and the separate in-memory
 * "recount" list. The grouping of items into tabs is `Domain.GroupByCategory`.
 */
module InventoryManagement {
  import opened Wrappers
  import opened Domain
  import Strings
  import InventoryStore
  import ExcelExport

  /** `departments[0]?.id || null`: the first department's id, unless there is none or it is empty. */
  function DefaultTab(departments: seq<Department>): Option<string> {
    if |departments| > 0 && departments[0].id != "" then Some(departments[0].id) else None
  }

  /** `departments.find(dept => dept.id === key)`: the first department with that id. */
  function FindDepartment(departments: seq<Department>, key: string): (r: Option<Department>)
    ensures r.Some? ==> r.value in departments && r.value.id == key
    ensures r.None? <==> forall k :: 0 <= k < |departments| ==> departments[k].id != key
  {
    if departments == [] then None
    else if departments[0].id == key then Some(departments[0])
    else FindDepartment(departments[1..], key)
  }

  /** The department found is the first one carrying the id. */
  lemma {:induction false} FindDepartmentFirst(departments: seq<Department>, key: string, k: nat)
    requires k < |departments| && departments[k].id == key
    requires forall j :: 0 <= j < k ==> departments[j].id != key
    ensures FindDepartment(departments, key) == Some(departments[k])
  {
    if k > 0 {
      FindDepartmentFirst(departments[1..], key, k - 1);
    }
  }

  /** The arguments of one `exportToExcel(departments, items, inventoryData, sendToTelegram, city)` call. */
  datatype ExportCall = ExportCall(departments: seq<Department>, items: seq<Item>, data: InventoryData,
                                   sendToTelegram: bool, city: Option<string>)

  /**
   * `handleExportToExcel` of this screen: nothing unless a tab is selected
   * and names a department; then that department alone, every item, the
   * whole quantity map, and no city.
   */
  function HandleExportToExcel(selectedTab: Option<string>, departments: seq<Department>, items: seq<Item>,
                               data: InventoryData, sendToTelegram: bool): (r: Option<ExportCall>)
    ensures r.Some? <==> selectedTab.Some? && selectedTab.value != ""
                          && exists k :: 0 <= k < |departments| && departments[k].id == selectedTab.value
    ensures r.Some? ==> && |r.value.departments| == 1
                        && r.value.departments[0] in departments
                        && r.value.departments[0].id == selectedTab.value
                        && r.value.items == items && r.value.data == data
                        && r.value.sendToTelegram == sendToTelegram && r.value.city == None
  {
    if selectedTab.None? || selectedTab.value == "" then None
    else match FindDepartment(departments, selectedTab.value)
      case None => None
      case Some(d) => Some(ExportCall([d], items, data, sendToTelegram, None))
  }

  /** With the default tab, the export is that of the first department. */
  lemma DefaultTabExportsFirstDepartment(departments: seq<Department>, items: seq<Item>,
                                         data: InventoryData, sendToTelegram: bool)
    requires |departments| > 0 && departments[0].id != ""
    ensures HandleExportToExcel(DefaultTab(departments), departments, items, data, sendToTelegram)
         == Some(ExportCall([departments[0]], items, data, sendToTelegram, None))
  {
    FindDepartmentFirst(departments, departments[0].id, 0);
  }

  /** The workbooks `exportToExcel` builds for a call. */
  function Books(call: ExportCall, isoDate: string, dateText: string): seq<ExcelExport.Workbook> {
    Map(call.departments, ExcelExport.BookOf(call.items, call.data, call.city, isoDate, dateText))
  }

  /**
   * The export of this screen passes no city, so the one workbook's
   * organisation line reads "Той самий Баранчик undefined".
   */
  lemma ExportHeaderReadsUndefined(selectedTab: Option<string>, departments: seq<Department>, items: seq<Item>,
                                   data: InventoryData, sendToTelegram: bool, isoDate: string, dateText: string)
    requires HandleExportToExcel(selectedTab, departments, items, data, sendToTelegram).Some?
    ensures var books := Books(HandleExportToExcel(selectedTab, departments, items, data, sendToTelegram).value,
                               isoDate, dateText);
      && |books| == 1
      && books[0].sheet[0] == [Str("Організація:"), Str("Той самий Баранчик undefined")]
  {
    var call := HandleExportToExcel(selectedTab, departments, items, data, sendToTelegram).value;
    var d := call.departments[0];
    MapCells(call.departments, ExcelExport.BookOf(call.items, call.data, call.city, isoDate, dateText), 0);
    ExcelExport.DepartmentSheetHeader(None, d, ItemsIn(items, d.id), data, dateText);
    ExcelExport.OrganisationNamesCity(None);
  }

  // ---------------------------------------------------------------------------
  // The recount list
  // ---------------------------------------------------------------------------

  /** The id of a recount entry added at time `now`: `recount-${Date.now()}`. */
  function RecountId(now: nat): string {
    "recount-" + Strings.NatToString(now)
  }

  /** Recount ids made at different times differ. */
  lemma RecountIdInjective(a: nat, b: nat)
    ensures RecountId(a) == RecountId(b) <==> a == b
  {
    Strings.StartsWithConcat("recount-", Strings.NatToString(a));
    Strings.StartsWithConcat("recount-", Strings.NatToString(b));
    Strings.NatToStringRoundTrip(a);
    Strings.NatToStringRoundTrip(b);
  }

  /** A recount id is never the id of a catalogue item, which starts with `item-`. */
  lemma RecountIdIsNotAnItemId(now: nat, item: Item)
    requires Strings.StartsWith(item.id, "item-")
    ensures RecountId(now) != item.id
  {
    assert RecountId(now)[0] == 'r';
    assert item.id[0..5][0] == 'i';
  }

  /** The screen's own state: the selected tab and the recount list with its input. */
  class Screen {
    var selectedTabKey: Option<string>
    var recountItems: seq<Item>
    var recountInput: string

    constructor ()
      ensures selectedTabKey == None && recountItems == [] && recountInput == ""
    {
      selectedTabKey := None;
      recountItems := [];
      recountInput := "";
    }

    /** The effect on `departments`: the selection returns to the default tab. */
    method DepartmentsChanged(departments: seq<Department>)
      modifies this`selectedTabKey
      ensures selectedTabKey == DefaultTab(departments)
    {
      selectedTabKey := DefaultTab(departments);
    }

    /** A tab click. */
    method SelectTab(key: string)
      modifies this`selectedTabKey
      ensures selectedTabKey == Some(key)
    {
      selectedTabKey := Some(key);
    }

    /** The download and share buttons: the export call made, if any. */
    method ExportCurrent(departments: seq<Department>, items: seq<Item>, data: InventoryData, sendToTelegram: bool)
      returns (call: Option<ExportCall>)
      ensures call == HandleExportToExcel(selectedTabKey, departments, items, data, sendToTelegram)
    {
      call := None;
      if selectedTabKey.Some? && selectedTabKey.value != "" {
        var selected := FindDepartment(departments, selectedTabKey.value);
        if selected.Some? {
          call := Some(ExportCall([selected.value], items, data, sendToTelegram, None));
        }
      }
    }

    method SetRecountInput(text: string)
      modifies this`recountInput
      ensures recountInput == text
    {
      recountInput := text;
    }

    /**
     * `handleAddRecountItem`: a non-blank input is appended, trimmed, as a
     * recount entry and the input is emptied; a blank one changes nothing.
     */
    method AddRecountItem(now: nat)
      modifies this`recountItems, this`recountInput
      ensures Strings.Trim(old(recountInput)) != "" ==>
        && recountItems == old(recountItems) + [Item(RecountId(now), Strings.Trim(old(recountInput)), "recount")]
        && recountInput == ""
      ensures Strings.Trim(old(recountInput)) == "" ==>
        recountItems == old(recountItems) && recountInput == old(recountInput)
    {
      var name := Strings.Trim(recountInput);
      if name != "" {
        recountItems := recountItems + [Item(RecountId(now), name, "recount")];
        recountInput := "";
      }
    }

    /** `handleDeleteRecountItem`: every entry with the id goes, the rest stay in order. */
    method DeleteRecountItem(id: string)
      modifies this`recountItems
      ensures recountItems == InventoryStore.RemoveItem(old(recountItems), id)
      ensures forall x :: x in recountItems <==> x in old(recountItems) && x.id != id
    {
      recountItems := InventoryStore.RemoveItem(recountItems, id);
    }

    /** `handleClearRecount`. */
    method ClearRecount()
      modifies this`recountItems
      ensures recountItems == []
    {
      recountItems := [];
    }
  }

  /**
   * Adding a recount entry and deleting its id gives back the list, provided
   * no entry already had that id.
   */
  lemma AddThenDeleteRecount(entries: seq<Item>, name: string, now: nat)
    requires forall x :: x in entries ==> x.id != RecountId(now)
    ensures InventoryStore.RemoveItem(entries + [Item(RecountId(now), name, "recount")], RecountId(now)) == entries
  {
    var entry := Item(RecountId(now), name, "recount");
    FilterAppend(entries, [entry], InventoryStore.IdIsNot(entry.id));
    FilterKeepsAll(entries, InventoryStore.IdIsNot(entry.id));
    FilterDropsAll([entry], InventoryStore.IdIsNot(entry.id));
  }
}
