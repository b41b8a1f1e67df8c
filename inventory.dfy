/**
 * The inventory page (src/pages/Inventory.tsx): the item list it loads, the
 * delete that updates it, the search filter and the three statistics cards.
 */
module Inventory {
  import opened Wrappers
  import opened Types
  import opened Strings
  import opened Lists
  import opened Toasts

  /** The page's view of an `inventory_items` row. */
  datatype ListedItem = ListedItem(
    id: string,
    name: string,
    description: Option<string>,
    category: Option<string>,
    estimatedValue: Option<real>,
    roomLocation: Option<string>,
    condition: Option<string>,
    createdAt: string)

  /** What the select of the caller's rows resolves to: an error, or data that may be null. */
  datatype SelectOutcome = SelectErr(message: string) | SelectOk(data: Option<seq<ListedItem>>)

  // ---------------------------------------------------------------- search

  /**
   * The search predicate: the lower-cased query occurs in the lower-cased
   * name, category or description. A null category or description does not
   * match (optional chaining yields `undefined`, which is falsy).
   */
  predicate MatchesQuery(item: ListedItem, query: string) {
    var q := Lower(query);
    || Includes(Lower(item.name), q)
    || (item.category.Some? && Includes(Lower(item.category.value), q))
    || (item.description.Some? && Includes(Lower(item.description.value), q))
  }

  /** A filter over the page's items keeps all copies of a kept item and none of any other. */
  lemma KeptCopies(items: seq<ListedItem>, keep: ListedItem -> bool)
    ensures forall x: ListedItem :: multiset(Filter(items, keep))[x] == if keep(x) then multiset(items)[x] else 0
  {
    forall x: ListedItem ensures multiset(Filter(items, keep))[x] == if keep(x) then multiset(items)[x] else 0 {
      FilterCount(items, keep, x);
    }
  }

  /** `filteredItems`: the matching items, each with all its copies, in list order. */
  function Filtered(items: seq<ListedItem>, query: string): (r: seq<ListedItem>)
    ensures IsSubsequence(r, items)
    ensures forall i :: 0 <= i < |r| ==> MatchesQuery(r[i], query)
    ensures forall i :: 0 <= i < |items| && MatchesQuery(items[i], query) ==> items[i] in r
    ensures forall x: ListedItem :: multiset(r)[x] == if MatchesQuery(x, query) then multiset(items)[x] else 0
  {
    var keep := (x: ListedItem) => MatchesQuery(x, query);
    FilterIsSubsequence(items, keep);
    KeptCopies(items, keep);
    Filter(items, keep)
  }

  /** The empty query matches every item. */
  lemma EmptyQueryKeepsAll(items: seq<ListedItem>)
    ensures Filtered(items, "") == items
  {
    assert Lower("") == "";
    forall i | 0 <= i < |items| ensures MatchesQuery(items[i], "") {
      IncludesIff(Lower(items[i].name), "");
    }
    FilterKeepsAll(items, (x: ListedItem) => MatchesQuery(x, ""));
  }

  /** The search ignores the case of the query. */
  lemma SearchIgnoresQueryCase(items: seq<ListedItem>, query: string)
    ensures Filtered(items, Lower(query)) == Filtered(items, query)
  {
    LowerIdempotent(query);
    FilterSamePredicate(items, (x: ListedItem) => MatchesQuery(x, Lower(query)), (x: ListedItem) => MatchesQuery(x, query));
  }

  /** Queries that differ only in the case of ASCII letters find the same items. */
  lemma SearchCaseInsensitive(items: seq<ListedItem>, query: string, other: string)
    requires SameIgnoringCase(query, other)
    ensures Filtered(items, query) == Filtered(items, other)
  {
    LowerIgnoresCase(query, other);
    FilterSamePredicate(items, (x: ListedItem) => MatchesQuery(x, query), (x: ListedItem) => MatchesQuery(x, other));
  }

  // ---------------------------------------------------------------- delete

  /** `items.filter(item => item.id !== id)`. */
  function WithoutId(items: seq<ListedItem>, id: string): seq<ListedItem> {
    Filter(items, (x: ListedItem) => x.id != id)
  }

  /** The items carrying `id`. */
  function WithId(items: seq<ListedItem>, id: string): seq<ListedItem> {
    Filter(items, (x: ListedItem) => x.id == id)
  }

  /**
   * Deleting removes every item of that id and nothing else: each other item
   * keeps all its copies, and the rest stay in order.
   */
  lemma DeleteRemovesExactly(items: seq<ListedItem>, id: string)
    ensures var r := WithoutId(items, id);
      && IsSubsequence(r, items)
      && (forall i :: 0 <= i < |r| ==> r[i].id != id)
      && (forall i :: 0 <= i < |items| && items[i].id != id ==> items[i] in r)
      && (forall x: ListedItem :: multiset(r)[x] == if x.id != id then multiset(items)[x] else 0)
  {
    var keep := (x: ListedItem) => x.id != id;
    FilterIsSubsequence(items, keep);
    KeptCopies(items, keep);
  }

  /** Deleting takes exactly the deleted items' value off the total. */
  lemma DeleteLowersTotal(items: seq<ListedItem>, id: string)
    ensures TotalValue(items) == TotalValue(WithoutId(items, id)) + TotalValue(WithId(items, id))
  {
    SumByPartition(items, (x: ListedItem) => x.id != id, (x: ListedItem) => x.id == id, EstimatedValue);
  }

  // ---------------------------------------------------------------- statistics

  function EstimatedValue(item: ListedItem): Option<real> {
    item.estimatedValue
  }

  /** The "Total Value" card: the values summed from the left, null counted as 0. */
  function TotalValue(items: seq<ListedItem>): real {
    SumBy(items, EstimatedValue)
  }

  /** The total is never negative when no value is. */
  lemma TotalValueNonNegative(items: seq<ListedItem>)
    requires forall i :: 0 <= i < |items| ==> items[i].estimatedValue.Some? ==> items[i].estimatedValue.value >= 0.0
    ensures TotalValue(items) >= 0.0
  {
    SumByNonNegative(items, EstimatedValue);
  }

  /** `item.category` is truthy and equal to `c`. */
  predicate HasCategory(item: ListedItem, c: string) {
    item.category == Some(c) && c != ""
  }

  /** `new Set(items.map(item => item.category).filter(Boolean))`. */
  function Categories(items: seq<ListedItem>): (r: set<string>)
    ensures forall c :: c in r <==> exists i :: 0 <= i < |items| && HasCategory(items[i], c)
    ensures |r| <= |items|
    decreases |items|
  {
    if items == [] then {}
    else
      var init := items[..|items| - 1];
      var last := items[|items| - 1];
      var prev := Categories(init);
      assert forall i :: 0 <= i < |init| ==> init[i] == items[i];
      assert forall c :: (exists i :: 0 <= i < |items| && HasCategory(items[i], c)) <==>
                         (exists i :: 0 <= i < |init| && HasCategory(init[i], c)) || HasCategory(last, c);
      if last.category.Some? && last.category.value != "" then prev + {last.category.value} else prev
  }

  /** The "Categories" card: distinct non-empty categories, compared exactly. */
  function CategoryCount(items: seq<ListedItem>): nat {
    |Categories(items)|
  }

  /** There are never more categories than items, and none exactly when no item has one. */
  lemma CategoryCountBounds(items: seq<ListedItem>)
    ensures CategoryCount(items) <= |items|
    ensures CategoryCount(items) == 0 <==>
              forall i :: 0 <= i < |items| ==> items[i].category.None? || items[i].category.value == ""
  {
    var cats := Categories(items);
    if cats == {} {
      forall i | 0 <= i < |items| && items[i].category.Some?
        ensures !HasCategory(items[i], items[i].category.value)
      {
        assert items[i].category.value !in cats;
      }
    } else {
      var c :| c in cats;
      var i :| 0 <= i < |items| && HasCategory(items[i], c);
      assert |cats| > 0;
    }
  }

  // ---------------------------------------------------------------- the page state

  class InventoryPage {
    var items: seq<ListedItem>
    var loading: bool
    var searchQuery: string

    /** The first render: no items, loading, empty search. */
    constructor ()
      ensures items == [] && loading && searchQuery == ""
    {
      items, loading, searchQuery := [], true, "";
    }

    /** What the list shows for the current query: every copy of every matching item, in list order. */
    function FilteredItems(): (r: seq<ListedItem>)
      reads this
      ensures IsSubsequence(r, items)
      ensures forall i :: 0 <= i < |r| ==> MatchesQuery(r[i], searchQuery)
      ensures forall x: ListedItem :: multiset(r)[x] == if MatchesQuery(x, searchQuery) then multiset(items)[x] else 0
    {
      Filtered(items, searchQuery)
    }

    /**
     * `fetchItems`: load the caller's rows. On any failure the list is kept
     * and an error is shown; loading ends either way.
     */
    method FetchItems(user: Option<AuthUser>, select: string -> SelectOutcome) returns (toast: Option<Toast>)
      modifies this`items, this`loading
      ensures !loading
      ensures user.None? ==> items == old(items) && toast == Some(ErrorToast(NotAuthenticatedMessage))
      ensures user.Some? && select(user.value.id).SelectErr? ==>
                items == old(items) && toast == Some(ErrorToast(select(user.value.id).message))
      ensures user.Some? && select(user.value.id).SelectOk? ==>
                items == select(user.value.id).data.GetOr([]) && toast.None?
    {
      if user.None? {
        toast := Some(ErrorToast(NotAuthenticatedMessage));
      } else {
        var outcome := select(user.value.id);
        match outcome
        case SelectErr(m) =>
          toast := Some(ErrorToast(m));
        case SelectOk(data) =>
          items := data.GetOr([]);
          toast := None;
      }
      loading := false;
    }

    /**
     * `handleDelete`: once the database delete succeeds, drop every item of
     * that id from the list; if it fails, keep the list and show the error.
     */
    method HandleDelete(id: string, deleteError: Option<string>) returns (toast: Toast)
      modifies this`items
      ensures items == if deleteError.Some? then old(items) else WithoutId(old(items), id)
      ensures toast.destructive <==> deleteError.Some?
      ensures deleteError.Some? ==> toast == ErrorToast(deleteError.value)
    {
      if deleteError.Some? {
        toast := ErrorToast(deleteError.value);
      } else {
        items := WithoutId(items, id);
        toast := Toast(false, "Item Deleted", "The item has been removed from your inventory.");
      }
    }
  }
}
