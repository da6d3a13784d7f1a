/**
 * `useDepartmentInventoryLogic`: a hook holding the same screen state as the
 * department screen (query, picked option, delete dialog, the two list
 * switches) and deriving the filtered list and the autocomplete options from
 * it. The list rules are the ones of `DepartmentInventory`.
 */
module DepartmentInventoryLogic {
  import opened Wrappers
  import opened Domain
  import Strings
  import DepartmentInventory

  class DepartmentInventoryHook {
    var newItemName: string
    var searchQuery: string
    var selectedItem: Option<string>
    var deleteModal: bool
    var deleteSearch: string
    var deleteSelected: Option<string>
    var showZeroOnly: bool
    var sortZeroToBottom: bool

    /** The initial state: the local query starts as the screen-wide one. */
    constructor (globalSearchQuery: string)
      ensures searchQuery == globalSearchQuery
      ensures newItemName == "" && selectedItem == None
      ensures !deleteModal && deleteSearch == "" && deleteSelected == None
      ensures !showZeroOnly && !sortZeroToBottom
    {
      newItemName := "";
      searchQuery := globalSearchQuery;
      selectedItem := None;
      deleteModal := false;
      deleteSearch := "";
      deleteSelected := None;
      showZeroOnly := false;
      sortZeroToBottom := false;
    }

    /** The first effect: a new screen-wide query replaces the local one. */
    method GlobalQueryChanged(globalQuery: string)
      modifies this`searchQuery
      ensures searchQuery == globalQuery
    {
      searchQuery := globalQuery;
    }

    /**
     * `setSearchQuery` followed by the second effect, which writes the local
     * query back as the screen-wide one (returned).
     */
    method SetSearchQuery(query: string) returns (globalQuery: string)
      modifies this`searchQuery
      ensures searchQuery == query && globalQuery == query
    {
      searchQuery := query;
      globalQuery := searchQuery;
    }

    /** `filteredItems`: the items whose name contains the query, ignoring case, in order. */
    function Filtered(items: seq<Item>, lower: string -> string): (r: seq<Item>)
      reads this
      ensures forall x :: x in r <==> x in items && Strings.Contains(lower(x.name), lower(searchQuery))
      ensures IsSubsequence(r, items)
    {
      DepartmentInventory.FilteredItems(items, searchQuery, lower)
    }

    /** `autocompleteItems`: one `{ key: id, label: name }` per item, in order. */
    function Suggestions(items: seq<Item>): (r: seq<DepartmentInventory.Suggestion>)
      ensures |r| == |items|
      ensures forall k :: 0 <= k < |r| ==> r[k].key == items[k].id && r[k].caption == items[k].name
    {
      DepartmentInventory.AutocompleteItems(items)
    }
  }

  /** With an empty query (and `toLowerCase("") == ""`) every item is listed. */
  lemma {:induction false} EmptyQueryListsAll(items: seq<Item>, lower: string -> string)
    requires lower("") == ""
    ensures DepartmentInventory.FilteredItems(items, "", lower) == items
  {
    forall x | x in items
      ensures DepartmentInventory.NameMatches("", lower)(x)
    {
      assert Strings.OccursAt("", lower(x.name), 0);
    }
    FilterKeepsAll(items, DepartmentInventory.NameMatches("", lower));
  }

  /**
   * The two effects reach a fixed point after one round: typing pushes the
   * query out, and feeding the pushed query back in changes no field of the
   * hook. `pushed` is the screen-wide query and `beforeFeedBack` the local
   * query just before it comes back.
   */
  method SearchSyncSettles(h: DepartmentInventoryHook, query: string) returns (pushed: string, beforeFeedBack: string)
    modifies h`searchQuery
    ensures pushed == query && beforeFeedBack == query
    ensures h.searchQuery == beforeFeedBack
  {
    pushed := h.SetSearchQuery(query);
    beforeFeedBack := h.searchQuery;
    h.GlobalQueryChanged(pushed);
  }
}
