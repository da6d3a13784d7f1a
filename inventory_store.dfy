/**
 * The client's multi-city inventory store (`useInventoryData`): one quantity
 * map, one item list and one history list per city, a shared department
 * list, and the four mutators the screens call for the current city.
 *
 * Each mutator replaces the city's entry by a new value built from the old
 * one; the functions below compute those new values and the lemmas state what
 * they keep and what they change.
 */
module InventoryStore {
  import opened Wrappers
  import opened Domain
  import Strings

  // ---------------------------------------------------------------------------
  // Per-city views: `allX[city] || default`
  // ---------------------------------------------------------------------------

  function CityData(all: map<string, InventoryData>, city: string): (r: InventoryData)
    ensures city in all ==> r == all[city]
    ensures city !in all ==> r == map[]
  {
    if city in all then all[city] else map[]
  }

  function CityItems(all: map<string, seq<Item>>, city: string): (r: seq<Item>)
    ensures city in all ==> r == all[city]
    ensures city !in all ==> r == []
  {
    if city in all then all[city] else []
  }

  function CityHistory(all: map<string, seq<HistoryEntry>>, city: string): (r: seq<HistoryEntry>)
    ensures city in all ==> r == all[city]
    ensures city !in all ==> r == []
  {
    if city in all then all[city] else []
  }

  // ---------------------------------------------------------------------------
  // The city-initialisation effect
  // ---------------------------------------------------------------------------

  /** `prev[city] ? prev : { ...prev, [city]: {} }`. */
  function InitData(prev: map<string, InventoryData>, city: string): (r: map<string, InventoryData>)
    ensures city in r && r.Keys == prev.Keys + {city}
    ensures forall c :: c in prev ==> r[c] == prev[c]
    ensures city !in prev ==> r[city] == map[]
  {
    if city in prev then prev else prev[city := map[]]
  }

  /** `prev[city] ? prev : { ...prev, [city]: [] }`. */
  function InitHistory(prev: map<string, seq<HistoryEntry>>, city: string): (r: map<string, seq<HistoryEntry>>)
    ensures city in r && r.Keys == prev.Keys + {city}
    ensures forall c :: c in prev ==> r[c] == prev[c]
    ensures city !in prev ==> r[city] == []
  {
    if city in prev then prev else prev[city := []]
  }

  /**
   * The item list of `city` after the init effect: kept when present and
   * non-empty, else the city's seed catalog, else empty.
   */
  function SeededItems(prev: map<string, seq<Item>>, city: string, cityItems: map<string, seq<Item>>): seq<Item> {
    if city in prev && |prev[city]| > 0 then prev[city]
    else if city in cityItems then cityItems[city]
    else []
  }

  function InitItems(prev: map<string, seq<Item>>, city: string, cityItems: map<string, seq<Item>>): (r: map<string, seq<Item>>)
    ensures city in r && r.Keys == prev.Keys + {city}
    ensures forall c :: c in prev && c != city ==> r[c] == prev[c]
  {
    prev[city := SeededItems(prev, city, cityItems)]
  }

  /**
   * The seeding rule: a non-empty list survives, a missing or empty one is
   * replaced by the catalog's list for the city, or by `[]` for a city the
   * catalog does not know.
   */
  lemma SeededItemsRule(prev: map<string, seq<Item>>, city: string, cityItems: map<string, seq<Item>>)
    ensures city in prev && prev[city] != [] ==> SeededItems(prev, city, cityItems) == prev[city]
    ensures (city !in prev || prev[city] == []) && city in cityItems ==> SeededItems(prev, city, cityItems) == cityItems[city]
    ensures (city !in prev || prev[city] == []) && city !in cityItems ==> SeededItems(prev, city, cityItems) == []
  {
  }

  /** Running the init effect a second time for the same city changes nothing. */
  lemma InitIdempotent(data: map<string, InventoryData>, items: map<string, seq<Item>>,
                       history: map<string, seq<HistoryEntry>>, city: string, cityItems: map<string, seq<Item>>)
    ensures InitData(InitData(data, city), city) == InitData(data, city)
    ensures InitHistory(InitHistory(history, city), city) == InitHistory(history, city)
    ensures InitItems(InitItems(items, city, cityItems), city, cityItems) == InitItems(items, city, cityItems)
  {
    var once := InitItems(items, city, cityItems);
    if !(city in items && |items[city]| > 0) && city in cityItems && cityItems[city] == [] {
      assert SeededItems(once, city, cityItems) == [];
    }
    assert once[city := SeededItems(once, city, cityItems)] == once;
  }

  // ---------------------------------------------------------------------------
  // The mutators, on the current city's values
  // ---------------------------------------------------------------------------

  /**
   * `updateItemCount`: the department map is created when missing, then the
   * item's entry is set to `count` exactly (no clamping).
   */
  function SetCount(cityData: InventoryData, d: string, i: string, count: real): (r: InventoryData)
    ensures r.Keys == cityData.Keys + {d}
    ensures r[d].Keys == (if d in cityData then cityData[d].Keys else {}) + {i}
    ensures r[d][i] == Num(count)
    ensures forall d' :: d' in cityData && d' != d ==> r[d'] == cityData[d']
    ensures forall i' :: d in cityData && i' in cityData[d] && i' != i ==> r[d][i'] == cityData[d][i']
  {
    var dept := if d in cityData then cityData[d] else map[];
    cityData[d := dept[i := Num(count)]]
  }

  /** Only the last of several writes to one entry is visible. */
  lemma LastWriteWins(cityData: InventoryData, d: string, i: string, first: real, second: real)
    ensures SetCount(SetCount(cityData, d, i, first), d, i, second) == SetCount(cityData, d, i, second)
  {
    var dept := if d in cityData then cityData[d] else map[];
    assert dept[i := Num(first)][i := Num(second)] == dept[i := Num(second)];
  }

  /** After a write, the store reads back the value written, as a number. */
  lemma SetCountReadBack(cityData: InventoryData, d: string, i: string, count: real)
    ensures Lookup(SetCount(cityData, d, i, count), d, i) == Some(Num(count))
    ensures NumericCount(SetCount(cityData, d, i, count), d, i) == count
  {
  }

  /** `resetDepartmentCounts`: department `d` becomes an empty map. */
  function ResetDepartment(cityData: InventoryData, d: string): (r: InventoryData)
    ensures r.Keys == cityData.Keys + {d}
    ensures r[d] == map[]
    ensures forall d' :: d' in cityData && d' != d ==> r[d'] == cityData[d']
  {
    cityData[d := map[]]
  }

  /** After a reset every item of the department counts as 0. */
  lemma ResetReadsZero(cityData: InventoryData, d: string, items: seq<Item>)
    ensures forall it :: it in items ==> NumericCount(ResetDepartment(cityData, d), d, it.id) == 0.0
    ensures DepartmentTotal(items, ResetDepartment(cityData, d), d) == 0.0
  {
    DepartmentTotalZero(items, ResetDepartment(cityData, d), d);
  }

  lemma {:induction false} DepartmentTotalZero(items: seq<Item>, data: InventoryData, d: string)
    requires d in data && data[d] == map[]
    ensures DepartmentTotal(items, data, d) == 0.0
  {
    if items != [] {
      DepartmentTotalZero(items[1..], data, d);
    }
  }

  /** The item `addNewItem` creates: id `"item-" + Date.now()`. */
  function NewItem(name: string, category: string, now: nat): (r: Item)
    ensures r.name == name && r.category == category
    ensures Strings.StartsWith(r.id, "item-") && r.id[5..] == Strings.NatToString(now)
  {
    Strings.StartsWithConcat("item-", Strings.NatToString(now));
    Item("item-" + Strings.NatToString(now), name, category)
  }

  function IdIsNot(id: string): Item -> bool {
    (item: Item) => item.id != id
  }

  /** `items.filter(item => item.id !== id)`. */
  function RemoveItem(items: seq<Item>, id: string): (r: seq<Item>)
    ensures forall x :: x in r <==> x in items && x.id != id
    ensures IsSubsequence(r, items)
    ensures (forall x :: x in items ==> x.id != id) ==> r == items
  {
    FilterIsSubsequence(items, IdIsNot(id));
    if forall x :: x in items ==> x.id != id then
      FilterKeepsAll(items, IdIsNot(id));
      Filter(items, IdIsNot(id))
    else Filter(items, IdIsNot(id))
  }

  /**
   * Adding an item and then deleting its (fresh) id gives back the list as it
   * was before the add.
   */
  lemma AddThenDelete(items: seq<Item>, name: string, category: string, now: nat)
    requires forall x :: x in items ==> x.id != NewItem(name, category, now).id
    ensures RemoveItem(items + [NewItem(name, category, now)], NewItem(name, category, now).id) == items
  {
    var item := NewItem(name, category, now);
    FilterAppend(items, [item], IdIsNot(item.id));
    FilterKeepsAll(items, IdIsNot(item.id));
    FilterDropsAll([item], IdIsNot(item.id));
  }

  /**
   * The quantity half of `deleteItem`: the entry is removed under department
   * `d` only, and only when that department map exists.
   */
  function DeleteCount(cityData: InventoryData, d: string, id: string): (r: InventoryData)
    ensures r.Keys == cityData.Keys
    ensures d in cityData ==> r[d] == cityData[d] - {id} && id !in r[d]
    ensures forall d' :: d' in cityData && d' != d ==> r[d'] == cityData[d']
    ensures d !in cityData ==> r == cityData
  {
    if d in cityData then cityData[d := cityData[d] - {id}] else cityData
  }

  // ---------------------------------------------------------------------------
  // The store
  // ---------------------------------------------------------------------------

  class Store {
    /** The city the hook was called with. */
    var city: string
    var departments: seq<Department>
    var allInventoryData: map<string, InventoryData>
    var allItems: map<string, seq<Item>>
    var allHistory: map<string, seq<HistoryEntry>>

    /** Mounting the hook: empty maps, the shared departments, then the init effect for `city`. */
    constructor (city: string, cityItems: map<string, seq<Item>>)
      ensures this.city == city && departments == InitialDepartments
      ensures allInventoryData == map[city := map[]]
      ensures allHistory == map[city := []]
      ensures allItems == map[city := if city in cityItems then cityItems[city] else []]
    {
      this.city := city;
      departments := InitialDepartments;
      allInventoryData := InitData(map[], city);
      allHistory := InitHistory(map[], city);
      allItems := InitItems(map[], city, cityItems);
    }

    /** `inventoryData`, `items` and `history` of the current city. */
    function InventoryView(): InventoryData
      reads this
    {
      CityData(allInventoryData, city)
    }

    function ItemsView(): seq<Item>
      reads this
    {
      CityItems(allItems, city)
    }

    function HistoryView(): seq<HistoryEntry>
      reads this
    {
      CityHistory(allHistory, city)
    }

    /** The hook is called with another city: the init effect runs for it. */
    method SelectCity(c: string, cityItems: map<string, seq<Item>>)
      modifies this
      ensures city == c && departments == old(departments)
      ensures allInventoryData == InitData(old(allInventoryData), c)
      ensures allHistory == InitHistory(old(allHistory), c)
      ensures allItems == InitItems(old(allItems), c, cityItems)
    {
      city := c;
      allInventoryData := InitData(allInventoryData, c);
      allHistory := InitHistory(allHistory, c);
      allItems := InitItems(allItems, c, cityItems);
    }

    method UpdateItemCount(d: string, i: string, count: real)
      modifies this
      ensures allInventoryData == old(allInventoryData)[city := SetCount(old(InventoryView()), d, i, count)]
      ensures InventoryView()[d][i] == Num(count)
      ensures city == old(city) && departments == old(departments)
      ensures allItems == old(allItems) && allHistory == old(allHistory)
    {
      var cityData := CityData(allInventoryData, city);
      if d !in cityData {
        cityData := cityData[d := map[]];
      }
      cityData := cityData[d := cityData[d][i := Num(count)]];
      assert cityData == SetCount(CityData(allInventoryData, city), d, i, count);
      allInventoryData := allInventoryData[city := cityData];
    }

    method ResetDepartmentCounts(d: string)
      modifies this
      ensures allInventoryData == old(allInventoryData)[city := ResetDepartment(old(InventoryView()), d)]
      ensures city == old(city) && departments == old(departments)
      ensures allItems == old(allItems) && allHistory == old(allHistory)
    {
      var cityData := CityData(allInventoryData, city);
      allInventoryData := allInventoryData[city := cityData[d := map[]]];
    }

    /** `addNewItem(name, categoryId)` at time `now` (`Date.now()`). */
    method AddNewItem(name: string, categoryId: string, now: nat)
      modifies this
      ensures allItems == old(allItems)[city := old(ItemsView()) + [NewItem(name, categoryId, now)]]
      ensures city == old(city) && departments == old(departments)
      ensures allInventoryData == old(allInventoryData) && allHistory == old(allHistory)
    {
      var newItem := Item("item-" + Strings.NatToString(now), name, categoryId);
      var cityItems := CityItems(allItems, city);
      allItems := allItems[city := cityItems + [newItem]];
    }

    /** `deleteItem(itemId, departmentId)`: both state updates it schedules. */
    method DeleteItem(itemId: string, departmentId: string)
      modifies this
      ensures allItems == old(allItems)[city := RemoveItem(old(ItemsView()), itemId)]
      ensures allInventoryData == old(allInventoryData)[city := DeleteCount(old(InventoryView()), departmentId, itemId)]
      ensures city == old(city) && departments == old(departments)
      ensures allHistory == old(allHistory)
    {
      var cityItems := if city in allItems then Filter(allItems[city], IdIsNot(itemId)) else [];
      allItems := allItems[city := cityItems];
      var cityData := CityData(allInventoryData, city);
      if departmentId in cityData {
        cityData := cityData[departmentId := cityData[departmentId] - {itemId}];
      }
      allInventoryData := allInventoryData[city := cityData];
    }
  }

  /**
   * A client of the store: adding an item and deleting it again restores the
   * current city's item list, and leaves every other city alone.
   */
  method AddThenDeleteRestores(s: Store, name: string, category: string, now: nat)
    requires forall x :: x in s.ItemsView() ==> x.id != NewItem(name, category, now).id
    modifies s
    ensures s.ItemsView() == old(s.ItemsView())
    ensures forall c :: c in old(s.allItems) && c != s.city ==> c in s.allItems && s.allItems[c] == old(s.allItems[c])
    ensures s.allHistory == old(s.allHistory)
  {
    s.AddNewItem(name, category, now);
    s.DeleteItem(NewItem(name, category, now).id, category);
    AddThenDelete(old(s.ItemsView()), name, category, now);
  }
}
