/**
 * One department's count screen (`DepartmentInventory`): the text fields that
 * hold the counts being typed, the rule that turns a field into a stored
 * count when it loses focus, the +1 / -1 buttons, the item code, the search
 * filter, the "zero counts first" row order and the department total.
 *
 * The component reads the current city's quantity map of the store and writes
 * to it through `updateItemCount`.
 */
module DepartmentInventory {
  import opened Wrappers
  import opened Domain
  import Strings
  import InventoryStore

  /** Crockery (`dept-1`) and packaging (`dept-3`) are counted in whole units. */
  predicate IsIntegerDepartment(d: string) {
    d == "dept-1" || d == "dept-3"
  }

  // ---------------------------------------------------------------------------
  // Entering a count
  // ---------------------------------------------------------------------------

  /** What a blur does with the field's text. */
  datatype BlurOutcome =
    | StoreCount(count: nat)   // `updateItemCount(department.id, itemId, count)`
    | ClearField               // invalid text: the store is left alone and the field emptied

  /** `handleInputBlur` for a whole-unit department, given the field's text. */
  function BlurDecision(value: string): BlurOutcome {
    if Strings.IsDigits(value) then StoreCount(Strings.DigitsValue(value))
    else if value == "" then StoreCount(0)
    else ClearField
  }

  /**
   * Only a non-empty run of ASCII digits is stored, as the number it spells;
   * an empty field stores 0; anything else is rejected.
   */
  lemma BlurDecisionSpec(value: string)
    ensures BlurDecision(value).StoreCount? <==> Strings.IsDigits(value) || value == ""
    ensures Strings.IsDigits(value) ==> BlurDecision(value) == StoreCount(Strings.DigitsValue(value))
    ensures value == "" ==> BlurDecision(value) == StoreCount(0)
    ensures BlurDecision(value) == ClearField <==> value != "" && exists i :: 0 <= i < |value| && !Strings.IsDigit(value[i])
  {
  }

  /** `Number(v)` of a stored value, `??` 0 when absent; `toNumber` is `Number` on text. */
  function NumberOf(v: Option<Value>, toNumber: string -> real): real {
    match v
    case None => 0.0
    case Some(Num(n)) => n
    case Some(Str(s)) => toNumber(s)
  }

  /** The −1 button: `Math.max(0, Number(current) - 1)`. */
  function DecrementedCount(current: Option<Value>, toNumber: string -> real): (r: real)
    ensures r >= 0.0
    ensures NumberOf(current, toNumber) >= 1.0 ==> r == NumberOf(current, toNumber) - 1.0
    ensures NumberOf(current, toNumber) < 1.0 ==> r == 0.0
  {
    var n := NumberOf(current, toNumber) - 1.0;
    if n > 0.0 then n else 0.0
  }

  /** The +1 button: `Number(current) + 1`. */
  function IncrementedCount(current: Option<Value>, toNumber: string -> real): (r: real)
    ensures r > NumberOf(current, toNumber) && r - 1.0 == NumberOf(current, toNumber)
  {
    NumberOf(current, toNumber) + 1.0
  }

  /** From a count of at least one, −1 undoes +1 and +1 undoes −1. */
  lemma IncrementDecrementInverse(c: real, toNumber: string -> real)
    requires c >= 0.0
    ensures DecrementedCount(Some(Num(IncrementedCount(Some(Num(c)), toNumber))), toNumber) == c
    ensures c >= 1.0 ==> IncrementedCount(Some(Num(DecrementedCount(Some(Num(c)), toNumber))), toNumber) == c
  {
  }

  /** The text the init effect puts in a whole-unit field: `String(Math.floor(Number(count)))`. */
  function InitialInputValue(v: Option<Value>, toNumber: string -> real): string {
    Strings.IntToString(NumberOf(v, toNumber).Floor)
  }

  /**
   * Focusing and leaving an untouched field stores the same whole count again;
   * a negative count (the store does not clamp) is rejected instead.
   */
  lemma {:induction false} BlurOfUntouchedField(k: int, toNumber: string -> real)
    ensures 0 <= k ==> BlurDecision(InitialInputValue(Some(Num(k as real)), toNumber)) == StoreCount(k)
    ensures k < 0 ==> BlurDecision(InitialInputValue(Some(Num(k as real)), toNumber)) == ClearField
  {
    assert (k as real).Floor == k;
    if 0 <= k {
      Strings.NatToStringRoundTrip(k);
    } else {
      Strings.NegativeNotDigits(k);
    }
  }

  // ---------------------------------------------------------------------------
  // getItemCode: /item-(.+)/
  // ---------------------------------------------------------------------------

  /** Characters `.` does not match in a JavaScript regular expression. */
  predicate IsLineTerminator(c: char) {
    c == '\n' || c == '\r' || c == '\U{2028}' || c == '\U{2029}'
  }

  predicate NoLineTerminators(s: string) {
    forall i :: 0 <= i < |s| ==> !IsLineTerminator(s[i])
  }

  /** `/item-(.+)/` can match at index `p`: `item-` then at least one character `.` accepts. */
  predicate MatchAt(s: string, p: nat) {
    Strings.OccursAt("item-", s, p) && p + 5 < |s| && !IsLineTerminator(s[p + 5])
  }

  /** The leftmost index at or after `p` where the pattern matches. */
  function FirstMatchFrom(s: string, p: nat): (r: Option<nat>)
    requires p <= |s|
    ensures r.Some? ==> p <= r.value && MatchAt(s, r.value) && forall j :: p <= j < r.value ==> !MatchAt(s, j)
    ensures r.None? ==> forall j :: p <= j ==> !MatchAt(s, j)
    decreases |s| - p
  {
    if MatchAt(s, p) then Some(p)
    else if p == |s| then None
    else FirstMatchFrom(s, p + 1)
  }

  /** Where the greedy `.+` stops: the first line terminator at or after `k`, or the end. */
  function LineEnd(s: string, k: nat): (r: nat)
    requires k <= |s|
    ensures k <= r <= |s| && NoLineTerminators(s[k..r])
    ensures r < |s| ==> IsLineTerminator(s[r])
    decreases |s| - k
  {
    if k == |s| || IsLineTerminator(s[k]) then k
    else
      var r := LineEnd(s, k + 1);
      assert s[k..r] == [s[k]] + s[k + 1..r];
      r
  }

  /** `getItemCode`: the captured group of the first match, or `""` when there is none. */
  function ItemCode(id: string): (code: string)
    ensures FirstMatchFrom(id, 0).None? ==> code == ""
    ensures FirstMatchFrom(id, 0).Some? ==> |code| > 0 && NoLineTerminators(code)
  {
    match FirstMatchFrom(id, 0)
    case None => ""
    case Some(p) => id[p + 5..LineEnd(id, p + 5)]
  }

  /**
   * For an id on one line, the code is the text after the first `item-`, and
   * `""` when `item-` does not occur or nothing follows it.
   */
  lemma ItemCodeOfPlainId(id: string)
    requires NoLineTerminators(id)
    ensures Strings.IndexOf(id, "item-").None? ==> ItemCode(id) == ""
    ensures Strings.IndexOf(id, "item-").Some? ==> ItemCode(id) == id[Strings.IndexOf(id, "item-").value + 5..]
  {
    match Strings.IndexOf(id, "item-")
    case None =>
      assert forall j :: 0 <= j ==> !MatchAt(id, j);
    case Some(p) =>
      if p + 5 < |id| {
        assert MatchAt(id, p);
        assert FirstMatchFrom(id, 0) == Some(p);
        assert LineEnd(id, p + 5) == |id|;
      } else {
        forall j | 0 <= j
          ensures !MatchAt(id, j)
        {
          if j < p {
            assert !Strings.OccursAt("item-", id, j);
          }
        }
      }
  }

  /** An id made by `addNewItem` has the creation time as its code. */
  lemma ItemCodeOfNewItem(name: string, category: string, now: nat)
    ensures ItemCode(InventoryStore.NewItem(name, category, now).id) == Strings.NatToString(now)
  {
    var id := InventoryStore.NewItem(name, category, now).id;
    var digits := Strings.NatToString(now);
    Strings.NatToStringRoundTrip(now);
    assert id == "item-" + digits;
    assert Strings.OccursAt("item-", id, 0);
    assert Strings.IndexOf(id, "item-") == Some(0);
    forall i | 0 <= i < |id|
      ensures !IsLineTerminator(id[i])
    {
      if i >= 5 {
        assert id[i] == digits[i - 5];
      }
    }
    ItemCodeOfPlainId(id);
  }

  // ---------------------------------------------------------------------------
  // Search, row order, total
  // ---------------------------------------------------------------------------

  /** `item.name.toLowerCase().includes(query.toLowerCase())`; `lower` is `toLowerCase`. */
  function NameMatches(query: string, lower: string -> string): Item -> bool {
    (item: Item) => Strings.Contains(lower(item.name), lower(query))
  }

  /** `filteredItems`: the items whose lower-cased name contains the lower-cased query, in order. */
  function FilteredItems(items: seq<Item>, query: string, lower: string -> string): (r: seq<Item>)
    ensures forall x :: x in r <==> x in items && Strings.Contains(lower(x.name), lower(query))
    ensures forall x :: multiset(r)[x] == if Strings.Contains(lower(x.name), lower(query)) then multiset(items)[x] else 0
    ensures IsSubsequence(r, items)
  {
    FilterMultiset(items, NameMatches(query, lower));
    FilterIsSubsequence(items, NameMatches(query, lower));
    Filter(items, NameMatches(query, lower))
  }

  /** A row of the table: the item and `Number(inventoryData[d]?.[item.id] ?? 0)`. */
  datatype Row = Row(item: Item, count: real)

  /** `itemsWithCount`. */
  function RowsWithCount(items: seq<Item>, data: InventoryData, d: string, toNumber: string -> real): (rows: seq<Row>)
    ensures |rows| == |items|
    ensures forall k :: 0 <= k < |rows| ==> rows[k] == Row(items[k], NumberOf(Lookup(data, d, items[k].id), toNumber))
  {
    if items == [] then []
    else [Row(items[0], NumberOf(Lookup(data, d, items[0].id), toNumber))] + RowsWithCount(items[1..], data, d, toNumber)
  }

  predicate IsZeroRow(r: Row) {
    r.count == 0.0
  }

  predicate IsNonZeroRow(r: Row) {
    r.count != 0.0
  }

  /** Every zero-count row comes before every other row. */
  predicate ZerosFirst(rows: seq<Row>) {
    forall i, j :: 0 <= i < j < |rows| && IsZeroRow(rows[j]) ==> IsZeroRow(rows[i])
  }

  /**
   * `sortedRows`: with the toggle on, the stable sort with the comparator
   * "zero before non-zero, otherwise equal"; with it off, the rows as they are.
   */
  function SortedRows(rows: seq<Row>, sortZeroToBottom: bool): (r: seq<Row>)
    ensures multiset(r) == multiset(rows)
    ensures sortZeroToBottom ==> ZerosFirst(r)
    ensures Filter(r, IsZeroRow) == Filter(rows, IsZeroRow)
    ensures Filter(r, IsNonZeroRow) == Filter(rows, IsNonZeroRow)
    ensures !sortZeroToBottom ==> r == rows
  {
    if !sortZeroToBottom then rows
    else
      PartitionKeepsGroups(rows);
      PartitionIsPermutation(rows);
      PartitionZerosFirst(rows);
      Filter(rows, IsZeroRow) + Filter(rows, IsNonZeroRow)
  }

  lemma PartitionKeepsGroups(rows: seq<Row>)
    ensures var p := Filter(rows, IsZeroRow) + Filter(rows, IsNonZeroRow);
      Filter(p, IsZeroRow) == Filter(rows, IsZeroRow) && Filter(p, IsNonZeroRow) == Filter(rows, IsNonZeroRow)
  {
    var zeros := Filter(rows, IsZeroRow);
    var others := Filter(rows, IsNonZeroRow);
    FilterAppend(zeros, others, IsZeroRow);
    FilterAppend(zeros, others, IsNonZeroRow);
    FilterIdempotent(rows, IsZeroRow);
    FilterIdempotent(rows, IsNonZeroRow);
    FilterDropsAll(others, IsZeroRow);
    FilterDropsAll(zeros, IsNonZeroRow);
  }

  lemma PartitionIsPermutation(rows: seq<Row>)
    ensures multiset(Filter(rows, IsZeroRow) + Filter(rows, IsNonZeroRow)) == multiset(rows)
  {
    var zeros := Filter(rows, IsZeroRow);
    var others := Filter(rows, IsNonZeroRow);
    FilterMultiset(rows, IsZeroRow);
    FilterMultiset(rows, IsNonZeroRow);
    forall x
      ensures multiset(zeros + others)[x] == multiset(rows)[x]
    {
      assert multiset(zeros + others)[x] == multiset(zeros)[x] + multiset(others)[x];
    }
  }

  lemma PartitionZerosFirst(rows: seq<Row>)
    ensures ZerosFirst(Filter(rows, IsZeroRow) + Filter(rows, IsNonZeroRow))
  {
    var zeros := Filter(rows, IsZeroRow);
    var others := Filter(rows, IsNonZeroRow);
    var p := zeros + others;
    forall i, j | 0 <= i < j < |p| && IsZeroRow(p[j])
      ensures IsZeroRow(p[i])
    {
      if j >= |zeros| {
        assert false;
      }
      assert p[i] == zeros[i];
      assert p[i] in zeros;
    }
  }

  /** Behind a non-zero row there are only non-zero rows. */
  lemma NonZeroHeadAllNonZero(s: seq<Row>)
    requires ZerosFirst(s) && s != [] && !IsZeroRow(s[0])
    ensures forall x :: x in s ==> !IsZeroRow(x)
  {
    forall x | x in s
      ensures !IsZeroRow(x)
    {
      var j :| 0 <= j < |s| && s[j] == x;
      if j > 0 && IsZeroRow(x) {
        assert false;
      }
    }
  }

  lemma ZerosFirstTail(s: seq<Row>)
    requires ZerosFirst(s) && s != []
    ensures ZerosFirst(s[1..])
  {
    var t := s[1..];
    forall i, j | 0 <= i < j < |t| && IsZeroRow(t[j])
      ensures IsZeroRow(t[i])
    {
      assert s[i + 1] == t[i] && s[j + 1] == t[j];
    }
  }

  /** A zeros-first sequence is its zero rows followed by its other rows. */
  lemma {:induction false} ZerosFirstSplits(s: seq<Row>)
    requires ZerosFirst(s)
    ensures s == Filter(s, IsZeroRow) + Filter(s, IsNonZeroRow)
  {
    if s != [] {
      if IsZeroRow(s[0]) {
        ZerosFirstTail(s);
        ZerosFirstSplits(s[1..]);
        assert s == [s[0]] + s[1..];
        FilterPartitionCons(s[0], s[1..], IsZeroRow, IsNonZeroRow);
      } else {
        NonZeroHeadAllNonZero(s);
        FilterDropsAll(s, IsZeroRow);
        FilterKeepsAll(s, IsNonZeroRow);
      }
    }
  }

  /**
   * The order is fully determined: any arrangement with the zero rows first
   * and each group in its original order is `SortedRows`.
   */
  lemma StableOrderIsUnique(rows: seq<Row>, s: seq<Row>)
    requires ZerosFirst(s)
    requires Filter(s, IsZeroRow) == Filter(rows, IsZeroRow)
    requires Filter(s, IsNonZeroRow) == Filter(rows, IsNonZeroRow)
    ensures s == SortedRows(rows, true)
  {
    ZerosFirstSplits(s);
  }

  // ---------------------------------------------------------------------------
  // Other field rules
  // ---------------------------------------------------------------------------

  /** `value.replace(/[^\d]/g, '')`: every digit of `value` and nothing else, in order. */
  function KeepDigits(value: string): (r: string)
    ensures forall i :: 0 <= i < |r| ==> Strings.IsDigit(r[i])
    ensures IsSubsequence(r, value)
    ensures forall c :: multiset(r)[c] == if Strings.IsDigit(c) then multiset(value)[c] else 0
  {
    var r := Filter(value, Strings.IsDigit);
    FilterIsSubsequence(value, Strings.IsDigit);
    FilterMultiset(value, Strings.IsDigit);
    assert forall i :: 0 <= i < |r| ==> r[i] in r;
    r
  }

  /**
   * `handleValueChange` in a whole-unit department (declared, never attached
   * to a field): `parseInt` of the digits, with `NaN` from an empty string
   * becoming 0 through `|| 0`.
   */
  function ValueChangeCount(value: string): nat {
    var digits := KeepDigits(value);
    if digits == "" then 0 else Strings.DigitsValue(digits)
  }

  /** On text the blur accepts, the unused change rule stores the same count. */
  lemma ValueChangeAgreesWithBlur(value: string)
    requires BlurDecision(value).StoreCount?
    ensures ValueChangeCount(value) == BlurDecision(value).count
  {
    if value != "" {
      assert forall x :: x in value ==> Strings.IsDigit(x);
      FilterKeepsAll(value, Strings.IsDigit);
    }
  }

  /** What `handleInputFocus` leaves in the field: a shown zero is emptied. */
  function FocusedFieldText(shown: string): (r: string)
    ensures shown == "0" || shown == "0,00" ==> r == ""
    ensures shown != "0" && shown != "0,00" ==> r == shown
  {
    if shown == "0" || shown == "0,00" then "" else shown
  }

  /**
   * A zero count shows "0". Focusing empties only the DOM text and fires no
   * change, so the field state the blur reads is still "0", and the blur
   * stores 0 again.
   */
  lemma FocusThenBlurKeepsZero(toNumber: string -> real)
    ensures InitialInputValue(Some(Num(0.0)), toNumber) == "0"
    ensures BlurDecision(InitialInputValue(Some(Num(0.0)), toNumber)) == StoreCount(0)
  {
    assert (0.0).Floor == 0;
    assert Strings.IsDigits("0");
    assert "0"[..0] == [];
  }

  /** The index of the first item with id `id`, from index `p` on. */
  function FirstWithId(items: seq<Item>, id: string, p: nat): (k: Option<nat>)
    requires p <= |items|
    ensures k.Some? ==> p <= k.value < |items| && items[k.value].id == id
    ensures k.Some? ==> forall j :: p <= j < k.value ==> items[j].id != id
    ensures k.None? ==> forall j :: p <= j < |items| ==> items[j].id != id
    decreases |items| - p
  {
    if p == |items| then None
    else if items[p].id == id then Some(p)
    else FirstWithId(items, id, p + 1)
  }

  /** `items.find(item => item.id === id)`: the first item with that id. */
  function FindById(items: seq<Item>, id: string): (r: Option<Item>)
    ensures r.None? <==> forall x :: x in items ==> x.id != id
    ensures r.Some? ==> r.value.id == id && r.value in items
  {
    match FirstWithId(items, id, 0)
    case Some(k) => Some(items[k])
    case None => None
  }

  /** An autocomplete option: `{ key: item.id, label: item.name }`. */
  datatype Suggestion = Suggestion(key: string, caption: string)

  /** `autocompleteItems`: one option per item, in list order. */
  function AutocompleteItems(items: seq<Item>): (r: seq<Suggestion>)
    ensures |r| == |items|
    ensures forall k :: 0 <= k < |r| ==> r[k].key == items[k].id && r[k].caption == items[k].name
  {
    if items == [] then [] else [Suggestion(items[0].id, items[0].name)] + AutocompleteItems(items[1..])
  }

  /** No two items share an id. */
  predicate DistinctIds(items: seq<Item>) {
    forall i, j :: 0 <= i < j < |items| ==> items[i].id != items[j].id
  }

  /**
   * Picking option `k` finds item `k` again, and the query it writes (that
   * item's name) keeps the item in the filtered list.
   */
  lemma PickedSuggestionStaysVisible(items: seq<Item>, k: nat, lower: string -> string)
    requires DistinctIds(items) && k < |items|
    ensures FindById(items, AutocompleteItems(items)[k].key) == Some(items[k])
    ensures items[k] in FilteredItems(items, items[k].name, lower)
  {
    var first := FirstWithId(items, items[k].id, 0);
    assert first == Some(k);
    var n := lower(items[k].name);
    assert Strings.OccursAt(n, n, 0);
  }

  // ---------------------------------------------------------------------------
  // Component state
  // ---------------------------------------------------------------------------

  class DepartmentView {
    const department: Department
    /** The text of the "new item" field. */
    var newItemName: string
    /** The local search query. */
    var searchQuery: string
    /** The id of the picked autocomplete option. */
    var selectedItem: Option<string>
    /** The text of each count field, by item id. */
    var inputValues: map<string, string>
    var deleteModal: bool
    var deleteSearch: string
    /** The item marked in the delete dialog. */
    var deleteSelected: Option<string>
    var sortZeroToBottom: bool

    constructor (department: Department, globalSearchQuery: string)
      ensures this.department == department
      ensures searchQuery == globalSearchQuery && inputValues == map[] && !sortZeroToBottom
      ensures newItemName == "" && selectedItem == None
      ensures !deleteModal && deleteSearch == "" && deleteSelected == None
    {
      this.department := department;
      newItemName := "";
      searchQuery := globalSearchQuery;
      selectedItem := None;
      inputValues := map[];
      deleteModal := false;
      deleteSearch := "";
      deleteSelected := None;
      sortZeroToBottom := false;
    }

    /**
     * Typing in the search box. The second effect copies the local query to
     * the screen-wide one, which is returned.
     */
    method SetSearchQuery(query: string) returns (globalQuery: string)
      modifies this`searchQuery
      ensures searchQuery == query && globalQuery == searchQuery
    {
      searchQuery := query;
      globalQuery := searchQuery;
    }

    /** The first effect: a new screen-wide query replaces the local one. */
    method GlobalQueryChanged(globalQuery: string)
      modifies this`searchQuery
      ensures searchQuery == globalQuery
    {
      searchQuery := globalQuery;
    }

    /**
     * `onSelectionChange` of the autocomplete: a non-empty key selects the
     * option and puts the name of the item with that id (or `""`) in the
     * search box; an empty or missing key changes nothing.
     */
    method SelectSuggestion(items: seq<Item>, key: Option<string>) returns (globalQuery: string)
      modifies this`selectedItem, this`searchQuery
      ensures key.Some? && key.value != "" ==>
        && selectedItem == key
        && searchQuery == (match FindById(items, key.value) case Some(it) => it.name case None => "")
      ensures !(key.Some? && key.value != "") ==> selectedItem == old(selectedItem) && searchQuery == old(searchQuery)
      ensures globalQuery == searchQuery
    {
      if key.Some? && key.value != "" {
        selectedItem := key;
        var found := FindById(items, key.value);
        searchQuery := if found.Some? then found.value.name else "";
      }
      globalQuery := searchQuery;
    }

    /** The clear button of the search box. */
    method ClearSearch() returns (globalQuery: string)
      modifies this`selectedItem, this`searchQuery
      ensures searchQuery == "" && selectedItem == None && globalQuery == ""
    {
      searchQuery := "";
      selectedItem := None;
      globalQuery := searchQuery;
    }

    method SetNewItemName(name: string)
      modifies this`newItemName
      ensures newItemName == name
    {
      newItemName := name;
    }

    /**
     * `handleAddItem`: a name that is not blank is added, trimmed, to this
     * department and the field is emptied; a blank name does nothing.
     */
    method HandleAddItem(store: InventoryStore.Store, now: nat)
      modifies this`newItemName, store
      ensures Strings.Trim(old(newItemName)) != "" ==>
        && store.allItems == old(store.allItems)[store.city := old(store.ItemsView()) + [InventoryStore.NewItem(Strings.Trim(old(newItemName)), department.id, now)]]
        && newItemName == ""
      ensures Strings.Trim(old(newItemName)) == "" ==> store.allItems == old(store.allItems) && newItemName == old(newItemName)
      ensures store.allInventoryData == old(store.allInventoryData) && store.allHistory == old(store.allHistory)
      ensures store.city == old(store.city) && store.departments == old(store.departments)
    {
      var name := Strings.Trim(newItemName);
      if name != "" {
        store.AddNewItem(name, department.id, now);
        newItemName := "";
      }
    }

    /** `handleResetConfirm`: empties this department's counts in the current city. */
    method HandleResetConfirm(store: InventoryStore.Store)
      modifies store
      ensures store.allInventoryData == old(store.allInventoryData)[store.city := InventoryStore.ResetDepartment(old(store.InventoryView()), department.id)]
      ensures store.city == old(store.city) && store.allItems == old(store.allItems)
      ensures store.allHistory == old(store.allHistory) && store.departments == old(store.departments)
    {
      store.ResetDepartmentCounts(department.id);
    }

    method OpenDeleteModal()
      modifies this`deleteModal
      ensures deleteModal
    {
      deleteModal := true;
    }

    method SetDeleteSearch(query: string)
      modifies this`deleteSearch
      ensures deleteSearch == query
    {
      deleteSearch := query;
    }

    /** A click on an item of the delete dialog marks it. */
    method MarkForDelete(itemId: string)
      modifies this`deleteSelected
      ensures deleteSelected == Some(itemId)
    {
      deleteSelected := Some(itemId);
    }

    /**
     * The delete button of the dialog: with a marked id that is not empty,
     * the item is removed (with its count in this department) and the dialog
     * closes; otherwise nothing happens.
     */
    method ConfirmDelete(store: InventoryStore.Store)
      modifies this`deleteSelected, this`deleteModal, store
      ensures old(deleteSelected).Some? && old(deleteSelected).value != "" ==>
        var id := old(deleteSelected).value;
        && store.allItems == old(store.allItems)[store.city := InventoryStore.RemoveItem(old(store.ItemsView()), id)]
        && store.allInventoryData == old(store.allInventoryData)[store.city := InventoryStore.DeleteCount(old(store.InventoryView()), department.id, id)]
        && deleteSelected == None && !deleteModal
      ensures !(old(deleteSelected).Some? && old(deleteSelected).value != "") ==>
        && store.allItems == old(store.allItems) && store.allInventoryData == old(store.allInventoryData)
        && deleteSelected == old(deleteSelected) && deleteModal == old(deleteModal)
      ensures store.city == old(store.city) && store.allHistory == old(store.allHistory) && store.departments == old(store.departments)
    {
      if deleteSelected.Some? && deleteSelected.value != "" {
        store.DeleteItem(deleteSelected.value, department.id);
        deleteSelected := None;
        deleteModal := false;
      }
    }

    method CloseDeleteModal()
      modifies this`deleteModal
      ensures !deleteModal
    {
      deleteModal := false;
    }

    /** The items the delete dialog lists. */
    function DeleteCandidates(items: seq<Item>, lower: string -> string): seq<Item>
      reads this
    {
      FilteredItems(items, deleteSearch, lower)
    }

    /**
     * The effect that refills the fields whenever the counts change (the
     * whole-unit branch): one field per item, holding its count's text.
     */
    method RefreshInputValues(items: seq<Item>, data: InventoryData, toNumber: string -> real)
      requires IsIntegerDepartment(department.id)
      modifies this`inputValues
      ensures inputValues.Keys == set it | it in items :: it.id
      ensures forall it :: it in items ==>
        inputValues[it.id] == InitialInputValue(Lookup(data, department.id, it.id), toNumber)
    {
      var newValues: map<string, string> := map[];
      for k := 0 to |items|
        invariant newValues.Keys == set it | it in items[..k] :: it.id
        invariant forall id :: id in newValues ==> newValues[id] == InitialInputValue(Lookup(data, department.id, id), toNumber)
      {
        assert items[..k + 1] == items[..k] + [items[k]];
        var count := Lookup(data, department.id, items[k].id);
        newValues := newValues[items[k].id := InitialInputValue(count, toNumber)];
      }
      assert items[..|items|] == items;
      inputValues := newValues;
    }

    /** `handleInputChange`: the field holds what was typed. */
    method HandleInputChange(itemId: string, value: string)
      modifies this`inputValues
      ensures inputValues == old(inputValues)[itemId := value]
    {
      inputValues := inputValues[itemId := value];
    }

    /** `handleValueChange` in a whole-unit department. */
    method HandleValueChange(store: InventoryStore.Store, itemId: string, value: string)
      requires IsIntegerDepartment(department.id)
      modifies store
      ensures store.allInventoryData == old(store.allInventoryData)[store.city := InventoryStore.SetCount(old(store.InventoryView()), department.id, itemId, ValueChangeCount(value) as real)]
      ensures store.city == old(store.city) && store.allItems == old(store.allItems)
      ensures store.allHistory == old(store.allHistory) && store.departments == old(store.departments)
    {
      store.UpdateItemCount(department.id, itemId, ValueChangeCount(value) as real);
    }

    /** `handleInputBlur` in a whole-unit department. */
    method HandleInputBlur(store: InventoryStore.Store, itemId: string)
      requires IsIntegerDepartment(department.id)
      modifies this`inputValues, store
      ensures var value := if itemId in old(inputValues) then old(inputValues[itemId]) else "";
        match BlurDecision(value)
        case StoreCount(c) =>
          && store.allInventoryData == old(store.allInventoryData)[store.city := InventoryStore.SetCount(old(store.InventoryView()), department.id, itemId, c as real)]
          && inputValues == old(inputValues)
        case ClearField =>
          && store.allInventoryData == old(store.allInventoryData)
          && inputValues == old(inputValues)[itemId := ""]
      ensures store.city == old(store.city) && store.allItems == old(store.allItems)
      ensures store.allHistory == old(store.allHistory) && store.departments == old(store.departments)
    {
      var value := if itemId in inputValues then inputValues[itemId] else "";
      var decision := BlurDecision(value);
      match decision {
        case StoreCount(c) =>
          store.UpdateItemCount(department.id, itemId, c as real);
        case ClearField =>
          inputValues := inputValues[itemId := ""];
      }
    }

    /** The −1 button of a row. */
    method Decrement(store: InventoryStore.Store, itemId: string, toNumber: string -> real)
      modifies store
      ensures var current := Lookup(old(store.InventoryView()), department.id, itemId);
        store.allInventoryData == old(store.allInventoryData)[store.city := InventoryStore.SetCount(old(store.InventoryView()), department.id, itemId, DecrementedCount(current, toNumber))]
      ensures store.InventoryView()[department.id][itemId].n >= 0.0
      ensures store.city == old(store.city) && store.allItems == old(store.allItems)
      ensures store.allHistory == old(store.allHistory) && store.departments == old(store.departments)
    {
      var current := Lookup(store.InventoryView(), department.id, itemId);
      store.UpdateItemCount(department.id, itemId, DecrementedCount(current, toNumber));
    }

    /** The +1 button of a row. */
    method Increment(store: InventoryStore.Store, itemId: string, toNumber: string -> real)
      modifies store
      ensures var current := Lookup(old(store.InventoryView()), department.id, itemId);
        store.allInventoryData == old(store.allInventoryData)[store.city := InventoryStore.SetCount(old(store.InventoryView()), department.id, itemId, IncrementedCount(current, toNumber))]
      ensures store.city == old(store.city) && store.allItems == old(store.allItems)
      ensures store.allHistory == old(store.allHistory) && store.departments == old(store.departments)
    {
      var current := Lookup(store.InventoryView(), department.id, itemId);
      store.UpdateItemCount(department.id, itemId, IncrementedCount(current, toNumber));
    }

    /** A click on the quantity column header. */
    method ToggleSort()
      modifies this`sortZeroToBottom
      ensures sortZeroToBottom == !old(sortZeroToBottom)
    {
      sortZeroToBottom := !sortZeroToBottom;
    }

    /** The rows the table shows, in display order. */
    function DisplayedRows(items: seq<Item>, data: InventoryData, lower: string -> string, toNumber: string -> real): seq<Row>
      reads this
    {
      SortedRows(RowsWithCount(FilteredItems(items, searchQuery, lower), data, department.id, toNumber), sortZeroToBottom)
    }
  }
}
