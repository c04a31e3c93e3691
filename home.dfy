/**
 * The home list of app/.../ui/viewmodel/HomeViewModel.kt: the
 * `filteredItems` combination of the item list, the type filter and the
 * search query, and the three state flows the view-model updates. The
 * repository listener is modelled by the filter it was started with and
 * the lists it emits.
 */
module Home {
  import opened Optional
  import opened Text
  import opened Items

  /** The search test of `filteredItems`, with the query already lower-cased. */
  predicate MatchesQuery(item: LostFoundItem, lowerQuery: string) {
    || Contains(Lower(item.itemName), lowerQuery)
    || Contains(Lower(item.location), lowerQuery)
    || Contains(Lower(item.description), lowerQuery)
  }

  /** `filter { ... }` with the search test, keeping the order. */
  function FilterByQuery(items: seq<LostFoundItem>, lowerQuery: string): (r: seq<LostFoundItem>)
    ensures forall x :: x in r <==> x in items && MatchesQuery(x, lowerQuery)
    ensures forall x :: multiset(r)[x] == if MatchesQuery(x, lowerQuery) then multiset(items)[x] else 0
    ensures IsSubsequence(r, items)
  {
    if items == [] then []
    else
      var rest := FilterByQuery(items[1..], lowerQuery);
      assert items == [items[0]] + items[1..];
      assert forall x :: x in items <==> x == items[0] || x in items[1..];
      if MatchesQuery(items[0], lowerQuery) then [items[0]] + rest else rest
  }

  /** The `combine` lambda of `filteredItems`. */
  function FilteredItems(items: seq<LostFoundItem>, filter: Option<ItemType>, query: string): (r: seq<LostFoundItem>)
    ensures IsSubsequence(r, items)
    ensures IsBlank(query) ==> r == FilterByOptionalType(items, filter)
    ensures !IsBlank(query) ==>
              forall x :: x in r <==>
                x in items && (filter.None? || x.itemType == filter.value) && MatchesQuery(x, Lower(query))
    ensures !IsBlank(query) ==>
              forall x :: multiset(r)[x] ==
                if (filter.None? || x.itemType == filter.value) && MatchesQuery(x, Lower(query))
                then multiset(items)[x] else 0
    ensures filter.Some? ==> forall i :: 0 <= i < |r| ==> r[i].itemType == filter.value
  {
    var filtered := FilterByOptionalType(items, filter);
    if IsBlank(query) then filtered
    else
      var q := Lower(query);
      var r := FilterByQuery(filtered, q);
      SubsequenceTransitive(r, filtered, items);
      forall x
        ensures x in r <==> x in items && (filter.None? || x.itemType == filter.value) && MatchesQuery(x, q)
        ensures multiset(r)[x] ==
                  if (filter.None? || x.itemType == filter.value) && MatchesQuery(x, q) then multiset(items)[x] else 0
      {
        assert x in r <==> x in filtered && MatchesQuery(x, q);
        assert multiset(r)[x] == if MatchesQuery(x, q) then multiset(filtered)[x] else 0;
      }
      r
  }

  /** Queries that differ only in letter case select the same items. */
  lemma FilteredItemsIgnoreCase(items: seq<LostFoundItem>, filter: Option<ItemType>, q1: string, q2: string)
    requires Lower(q1) == Lower(q2)
    ensures FilteredItems(items, filter, q1) == FilteredItems(items, filter, q2)
  {
    LowerKeepsBlank(q1);
    LowerKeepsBlank(q2);
  }

  /** With neither a type nor a query nothing is removed. */
  lemma FilteredItemsNoCriteria(items: seq<LostFoundItem>, query: string)
    requires IsBlank(query)
    ensures FilteredItems(items, None, query) == items
  {
  }

  /** Search results are what the type filter alone would show, narrowed further. */
  lemma {:induction false} SearchNarrowsTypeFilter(items: seq<LostFoundItem>, filter: Option<ItemType>, query: string)
    ensures IsSubsequence(FilteredItems(items, filter, query), FilterByOptionalType(items, filter))
  {
    var filtered := FilterByOptionalType(items, filter);
    if IsBlank(query) {
      SubsequenceReflexive(filtered);
    }
  }

  class HomeViewModel {
    var selectedFilter: Option<ItemType>
    var searchQuery: string
    var items: seq<LostFoundItem>
    var isLoading: bool
    /** The type the running `getAllItems` listener was started with. */
    var listenerFilter: Option<ItemType>

    /** The current value of `filteredItems`. */
    function Filtered(): (r: seq<LostFoundItem>)
      reads this
      ensures IsSubsequence(r, items)
    {
      FilteredItems(items, selectedFilter, searchQuery)
    }

    /** `init { loadItems() }`. */
    constructor ()
      ensures selectedFilter == None && searchQuery == "" && items == []
      ensures isLoading && listenerFilter == None
    {
      selectedFilter := None;
      searchQuery := "";
      items := [];
      isLoading := true;
      listenerFilter := None;
    }

    /** `loadItems`: the previous listener is replaced by one for the selected filter. */
    method LoadItems()
      modifies this`isLoading, this`listenerFilter
      ensures isLoading && listenerFilter == selectedFilter
    {
      isLoading := true;
      listenerFilter := selectedFilter;
    }

    /** One emission of the listener. */
    method OnItemsEmitted(list: seq<LostFoundItem>)
      modifies this`items, this`isLoading
      ensures items == list && !isLoading
    {
      items := list;
      isLoading := false;
    }

    /** The listener threw: loading stops and the list stays. */
    method OnLoadFailed()
      modifies this`isLoading
      ensures !isLoading
    {
      isLoading := false;
    }

    /** `setFilter`: a new filter restarts loading; the list and query stay until items arrive. */
    method SetFilter(t: Option<ItemType>)
      modifies this`selectedFilter, this`isLoading, this`listenerFilter
      ensures selectedFilter == t && listenerFilter == t && isLoading
    {
      selectedFilter := t;
      LoadItems();
    }

    /** `setSearchQuery`: nothing but the query changes. */
    method SetSearchQuery(query: string)
      modifies this`searchQuery
      ensures searchQuery == query
    {
      searchQuery := query;
    }
  }

  /**
   * Setting a query and then one that differs only in letter case shows the
   * same items; selecting FOUND shows only found items once the listener emits.
   */
  method FilterScenario(list: seq<LostFoundItem>, query: string, otherCase: string)
    requires Lower(otherCase) == Lower(query)
  {
    var vm := new HomeViewModel();
    vm.OnItemsEmitted(list);
    vm.SetSearchQuery(query);
    var before := vm.Filtered();
    vm.SetSearchQuery(otherCase);
    FilteredItemsIgnoreCase(list, None, query, otherCase);
    assert vm.Filtered() == before;
    vm.SetFilter(Some(FOUND));
    vm.OnItemsEmitted(list);
    assert forall i :: 0 <= i < |vm.Filtered()| ==> vm.Filtered()[i].itemType == FOUND;
  }
}
