/**
 * The inventory domain shared by the web client, the exporters and the
 * screens: departments, items and the per-department quantity map, with the
 * two list operations every part of the code repeats (keep the items of one
 * category, add up the numeric counts).
 */
module Domain {
  import opened Wrappers

  /**
   * A stored cell of the quantity map. The client types it `number | string`;
   * numbers are modelled as exact reals.
   */
  datatype Value = Num(n: real) | Str(s: string)

  datatype Department = Department(id: string, name: string)

  datatype Item = Item(id: string, name: string, category: string)

  /** An audit record. The code declares and persists these but never creates one. */
  datatype HistoryEntry = HistoryEntry(
    timestamp: int, userId: string, userName: string,
    itemId: string, itemName: string,
    departmentId: string, departmentName: string,
    oldValue: real, newValue: real)

  /** itemId -> stored value, for one department. */
  type DeptCounts = map<string, Value>

  /** departmentId -> itemId -> stored value, for one city. */
  type InventoryData = map<string, DeptCounts>

  /** The three departments every city shares. */
  const InitialDepartments: seq<Department> := [
    Department("dept-1", "Посуда"),
    Department("dept-2", "Хозяйственные товары"),
    Department("dept-3", "Упаковка")
  ]

  /** `inventoryData[d]?.[i]`. */
  function Lookup(data: InventoryData, d: string, i: string): (r: Option<Value>)
    ensures r.Some? <==> d in data && i in data[d]
    ensures r.Some? ==> r.value == data[d][i]
  {
    if d in data && i in data[d] then Some(data[d][i]) else None
  }

  /** `typeof inventoryData[d]?.[i] === "number" ? inventoryData[d][i] : 0`. */
  function NumericCount(data: InventoryData, d: string, i: string): (c: real)
    ensures (d in data && i in data[d] && data[d][i].Num?) ==> c == data[d][i].n
    ensures !(d in data && i in data[d] && data[d][i].Num?) ==> c == 0.0
  {
    match Lookup(data, d, i)
    case Some(Num(n)) => n
    case _ => 0.0
  }

  /** The counts of one department only: other departments do not affect it. */
  lemma NumericCountLocal(data: InventoryData, other: InventoryData, d: string, i: string)
    requires d in data <==> d in other
    requires d in data ==> data[d] == other[d]
    ensures NumericCount(data, d, i) == NumericCount(other, d, i)
  {
  }

  // ---------------------------------------------------------------------------
  // Array.prototype.filter
  // ---------------------------------------------------------------------------

  /** `a` can be obtained from `b` by deleting elements: the order of `a` is the order in `b`. */
  ghost predicate IsSubsequence<T(!new)>(a: seq<T>, b: seq<T>)
    decreases |b|
  {
    a == [] || (b != [] && ((a[0] == b[0] && IsSubsequence(a[1..], b[1..])) || IsSubsequence(a, b[1..])))
  }

  /**
   * `s.filter(keep)`: the elements that pass, in their original order, each as
   * often as it occurs in `s`.
   */
  function Filter<T(==,!new)>(s: seq<T>, keep: T -> bool): (r: seq<T>)
    ensures |r| <= |s|
    ensures forall x :: x in r <==> x in s && keep(x)
  {
    if s == [] then []
    else
      assert s == [s[0]] + s[1..];
      var rest := Filter(s[1..], keep);
      if keep(s[0]) then
        assert ([s[0]] + rest)[1..] == rest;
        [s[0]] + rest
      else rest
  }

  /** Filtering keeps the order of the elements it keeps. */
  lemma {:induction false} FilterIsSubsequence<T(!new)>(s: seq<T>, keep: T -> bool)
    ensures IsSubsequence(Filter(s, keep), s)
    decreases |s|
  {
    if s != [] {
      FilterIsSubsequence(s[1..], keep);
      if keep(s[0]) {
        assert Filter(s, keep)[1..] == Filter(s[1..], keep);
      }
    }
  }

  /** Filtering keeps every passing element as often as it occurs, and drops the rest. */
  lemma {:induction false} FilterMultiset<T(!new)>(s: seq<T>, keep: T -> bool)
    ensures forall x :: multiset(Filter(s, keep))[x] == if keep(x) then multiset(s)[x] else 0
    decreases |s|
  {
    if s != [] {
      FilterMultiset(s[1..], keep);
      assert s == [s[0]] + s[1..];
    }
  }

  lemma {:induction false} FilterAppend<T(!new)>(a: seq<T>, b: seq<T>, keep: T -> bool)
    ensures Filter(a + b, keep) == Filter(a, keep) + Filter(b, keep)
  {
    if a == [] {
      assert a + b == b;
    } else {
      assert (a + b)[0] == a[0];
      assert (a + b)[1..] == a[1..] + b;
      FilterAppend(a[1..], b, keep);
    }
  }

  /** Filtering a sequence that starts with `x`. */
  lemma FilterCons<T(!new)>(x: T, t: seq<T>, keep: T -> bool)
    ensures Filter([x] + t, keep) == if keep(x) then [x] + Filter(t, keep) else Filter(t, keep)
  {
    assert ([x] + t)[1..] == t;
  }

  lemma ConsAssoc<T>(x: T, a: seq<T>, b: seq<T>)
    ensures [x] + (a + b) == ([x] + a) + b
  {
  }

  /**
   * If `t` is its `first` elements followed by its `second` elements, so is
   * `[x] + t` for an `x` that passes only `first`.
   */
  lemma {:induction false} FilterPartitionCons<T(!new)>(x: T, t: seq<T>, first: T -> bool, second: T -> bool)
    requires first(x) && !second(x)
    requires t == Filter(t, first) + Filter(t, second)
    ensures [x] + t == Filter([x] + t, first) + Filter([x] + t, second)
  {
    var a := Filter(t, first);
    var b := Filter(t, second);
    FilterCons(x, t, first);
    FilterCons(x, t, second);
    assert Filter([x] + t, first) == [x] + a;
    assert Filter([x] + t, second) == b;
    ConsAssoc(x, a, b);
  }

  /** A filter every element passes changes nothing. */
  lemma {:induction false} FilterKeepsAll<T(!new)>(s: seq<T>, keep: T -> bool)
    requires forall x :: x in s ==> keep(x)
    ensures Filter(s, keep) == s
  {
    if s != [] {
      assert forall x :: x in s[1..] ==> x in s;
      FilterKeepsAll(s[1..], keep);
    }
  }

  /** A filter no element passes leaves nothing. */
  lemma FilterDropsAll<T(!new)>(s: seq<T>, keep: T -> bool)
    requires forall x :: x in s ==> !keep(x)
    ensures Filter(s, keep) == []
  {
    if Filter(s, keep) != [] {
      assert Filter(s, keep)[0] in Filter(s, keep);
    }
  }

  /** Filtering twice with the same test is filtering once. */
  lemma FilterIdempotent<T(!new)>(s: seq<T>, keep: T -> bool)
    ensures Filter(Filter(s, keep), keep) == Filter(s, keep)
  {
    FilterKeepsAll(Filter(s, keep), keep);
  }

  // ---------------------------------------------------------------------------
  // Array.prototype.map
  // ---------------------------------------------------------------------------

  /** `xs.map(f)`. */
  function Map<A, B>(xs: seq<A>, f: A -> B): (r: seq<B>)
    ensures |r| == |xs|
  {
    if xs == [] then [] else Map(xs[..|xs| - 1], f) + [f(xs[|xs| - 1])]
  }

  /** Element `k` of the result is `f` of element `k`. */
  lemma {:induction false} MapCells<A, B>(xs: seq<A>, f: A -> B, k: nat)
    requires k < |xs|
    ensures Map(xs, f)[k] == f(xs[k])
    decreases |xs|
  {
    var n := |xs| - 1;
    if k < n {
      MapCells(xs[..n], f, k);
    }
  }

  /** Mapping one more element appends its image. */
  lemma MapStep<A, B>(xs: seq<A>, f: A -> B, k: nat)
    requires k < |xs|
    ensures Map(xs[..k + 1], f) == Map(xs[..k], f) + [f(xs[k])]
  {
    assert xs[..k + 1][..k] == xs[..k];
  }

  // ---------------------------------------------------------------------------
  // Grouping by category
  // ---------------------------------------------------------------------------

  function InCategory(category: string): Item -> bool {
    (item: Item) => item.category == category
  }

  /** `items.filter(item => item.category === category)`. */
  function ItemsIn(items: seq<Item>, category: string): seq<Item> {
    Filter(items, InCategory(category))
  }

  /**
   * A category's items are the catalogue's items of that category, in
   * catalogue order, each as often as it occurs there.
   */
  lemma ItemsInSpec(items: seq<Item>, category: string)
    ensures var r := ItemsIn(items, category);
      && (forall x :: x in r <==> x in items && x.category == category)
      && (forall x :: multiset(r)[x] == if x.category == category then multiset(items)[x] else 0)
      && IsSubsequence(r, items)
  {
    FilterMultiset(items, InCategory(category));
    FilterIsSubsequence(items, InCategory(category));
  }

  /**
   * The `itemsByCategory` object the screen and both exporters build with a
   * `forEach` over the departments: one entry per department id, holding
   * that department's items in list order.
   */
  method GroupByCategory(departments: seq<Department>, items: seq<Item>) returns (grouped: map<string, seq<Item>>)
    ensures forall k :: 0 <= k < |departments| ==> departments[k].id in grouped
    ensures forall id :: id in grouped ==> (exists k :: 0 <= k < |departments| && departments[k].id == id)
    ensures forall id :: id in grouped ==> grouped[id] == ItemsIn(items, id)
  {
    grouped := map[];
    for k := 0 to |departments|
      invariant forall j :: 0 <= j < k ==> departments[j].id in grouped
      invariant forall id :: id in grouped ==> (exists j :: 0 <= j < k && departments[j].id == id)
      invariant forall id :: id in grouped ==> grouped[id] == ItemsIn(items, id)
    {
      grouped := grouped[departments[k].id := ItemsIn(items, departments[k].id)];
    }
  }

  // ---------------------------------------------------------------------------
  // Totals
  // ---------------------------------------------------------------------------

  /** Every stored number of department `d` is non-negative. */
  ghost predicate NonNegativeCounts(data: InventoryData, d: string) {
    d in data ==> forall i :: i in data[d] && data[d][i].Num? ==> data[d][i].n >= 0.0
  }

  /**
   * `items.reduce((sum, item) => sum + NumericCount(data, d, item.id), 0)`:
   * the numeric counts of `items` in department `d`, with absent or textual
   * entries contributing 0.
   */
  function DepartmentTotal(items: seq<Item>, data: InventoryData, d: string): (t: real)
    ensures NonNegativeCounts(data, d) ==> t >= 0.0
    ensures items == [] ==> t == 0.0
  {
    if items == [] then 0.0
    else NumericCount(data, d, items[0].id) + DepartmentTotal(items[1..], data, d)
  }

  lemma {:induction false} DepartmentTotalAppend(a: seq<Item>, b: seq<Item>, data: InventoryData, d: string)
    ensures DepartmentTotal(a + b, data, d) == DepartmentTotal(a, data, d) + DepartmentTotal(b, data, d)
  {
    if a == [] {
      assert a + b == b;
    } else {
      assert (a + b)[0] == a[0];
      assert (a + b)[1..] == a[1..] + b;
      DepartmentTotalAppend(a[1..], b, data, d);
    }
  }
}
