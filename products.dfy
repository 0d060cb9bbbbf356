/**
 * The product list of the seller dashboard: a search and two category
 * filters, a sort by one column, a selection for bulk deletion, and
 * single and bulk delete.
 */
module Products {
  import opened Text
  import opened Seqs
  import opened Sorting
  import opened Calendar
  import opened ListView

  /** One product row; `price` is in cents and `discount` a percentage. */
  datatype Product = Product(
    id: string,
    name: string,
    platform: string,
    price: int,
    discount: int,
    stock: string,
    status: string,
    sales: int,
    dateAdded: Date)

  /** The criteria a row must meet: a case-insensitive name search, a status and a platform ("all" for any). */
  predicate Matches(p: Product, query: string, status: string, platform: string)
  {
    Includes(ToLower(p.name), ToLower(query))
    && (status == "all" || p.status == status)
    && (platform == "all" || p.platform == platform)
  }

  function RowFilter(query: string, status: string, platform: string): Product -> bool
  {
    (p: Product) => Matches(p, query, status, platform)
  }

  /** The comparator of the sort step: name, price or sales, and the date added for any other field. */
  function ProductOrder(sort: SortState): (Product, Product) -> int
  {
    if sort.field == "name" then ByText((p: Product) => p.name, sort.direction)
    else if sort.field == "price" then ByNumber((p: Product) => p.price, sort.direction)
    else if sort.field == "sales" then ByNumber((p: Product) => p.sales, sort.direction)
    else ByNumber((p: Product) => DayNumber(p.dateAdded), sort.direction)
  }

  /** `filteredProducts`: the passing rows, sorted. */
  function Displayed(products: seq<Product>, query: string, status: string, platform: string, sort: SortState): seq<Product>
  {
    Sort(Filter(products, RowFilter(query, status, platform)), ProductOrder(sort))
  }

  function Ids(ps: seq<Product>): (r: seq<string>)
    ensures |r| == |ps|
    ensures forall i :: 0 <= i < |ps| ==> r[i] == ps[i].id
  {
    if ps == [] then [] else [ps[0].id] + Ids(ps[1..])
  }

  /** `products.filter((product) => product.id !== productId)`. */
  function WithoutId(products: seq<Product>, id: string): (r: seq<Product>)
    ensures forall i :: 0 <= i < |r| ==> r[i] in products && r[i].id != id
    ensures forall i :: 0 <= i < |products| && products[i].id != id ==> products[i] in r
    ensures forall x :: multiset(r)[x] == if x.id != id then multiset(products)[x] else 0
  {
    FilterCounts(products, (p: Product) => p.id != id);
    Filter(products, (p: Product) => p.id != id)
  }

  /** `products.filter((product) => !selectedProducts.includes(product.id))`. */
  function WithoutSelected(products: seq<Product>, selected: seq<string>): (r: seq<Product>)
    ensures forall i :: 0 <= i < |r| ==> r[i] in products && r[i].id !in selected
    ensures forall i :: 0 <= i < |products| && products[i].id !in selected ==> products[i] in r
    ensures forall x :: multiset(r)[x] == if x.id !in selected then multiset(products)[x] else 0
  {
    FilterCounts(products, (p: Product) => p.id !in selected);
    Filter(products, (p: Product) => p.id !in selected)
  }

  /** The price shown, `price - price * discount / 100`, in hundredths of a cent. */
  function DiscountedPriceTimes100(p: Product): int
  {
    p.price * (100 - p.discount)
  }

  // ------------------------------------------------------------ lemmas

  /** The name search is a genuine substring test of the lower-cased name. */
  lemma MatchesIff(p: Product, query: string, status: string, platform: string)
    ensures Matches(p, query, status, platform) ==>
        ((exists i :: OccursAt(ToLower(p.name), ToLower(query), i))
         && (status == "all" || p.status == status)
         && (platform == "all" || p.platform == platform))
    ensures ((exists i :: OccursAt(ToLower(p.name), ToLower(query), i))
        && (status == "all" || p.status == status)
        && (platform == "all" || p.platform == platform)) ==> Matches(p, query, status, platform)
  {
    IncludesIff(ToLower(p.name), ToLower(query));
  }

  /** A product is shown exactly when it is in the store and meets every criterion. */
  lemma ShownIff(products: seq<Product>, query: string, status: string, platform: string, sort: SortState, p: Product)
    ensures p in Displayed(products, query, status, platform, sort) <==> p in products && Matches(p, query, status, platform)
  {
    var passing := Filter(products, RowFilter(query, status, platform));
    SortPermutation(passing, ProductOrder(sort));
    assert p in Displayed(products, query, status, platform, sort) <==> p in passing by {
      var shown := Displayed(products, query, status, platform, sort);
      assert multiset(shown) == multiset(passing);
      assert p in shown <==> p in multiset(shown);
    }
    if p in passing {
      var i :| 0 <= i < |passing| && passing[i] == p;
    }
    if p in products && Matches(p, query, status, platform) {
      var i :| 0 <= i < |products| && products[i] == p;
    }
  }

  /** The initial criteria (empty search, "all", "all") let every product through, in store order. */
  lemma NoCriteriaPassesAll(products: seq<Product>)
    ensures Filter(products, RowFilter("", "all", "all")) == products
  {
    forall i | 0 <= i < |products| ensures RowFilter("", "all", "all")(products[i]) {
      IncludesEmpty(ToLower(products[i].name));
    }
    FilterAllPass(products, RowFilter("", "all", "all"));
  }

  /** The order used for any field is a consistent comparator. */
  lemma ProductOrderIsComparator(sort: SortState)
    ensures IsComparator(ProductOrder(sort))
  {
    if sort.field == "name" {
      ByTextIsComparator((p: Product) => p.name, sort.direction);
    } else if sort.field == "price" {
      ByNumberIsComparator((p: Product) => p.price, sort.direction);
    } else if sort.field == "sales" {
      ByNumberIsComparator((p: Product) => p.sales, sort.direction);
    } else {
      ByNumberIsComparator((p: Product) => DayNumber(p.dateAdded), sort.direction);
    }
  }

  /**
   * The shown list is the passing rows ordered by the sort: sorted, a
   * permutation of them, ties kept in store order, and stable under
   * sorting again.
   */
  lemma DisplayedIsSortedPassing(products: seq<Product>, query: string, status: string, platform: string, sort: SortState)
    ensures var passing := Filter(products, RowFilter(query, status, platform));
      var shown := Displayed(products, query, status, platform, sort);
      Sorted(shown, ProductOrder(sort))
      && multiset(shown) == multiset(passing)
      && (forall k :: RankOf(shown, ProductOrder(sort), k) == RankOf(passing, ProductOrder(sort), k))
      && Sort(shown, ProductOrder(sort)) == shown
  {
    var passing := Filter(products, RowFilter(query, status, platform));
    var cmp := ProductOrder(sort);
    ProductOrderIsComparator(sort);
    SortSorted(passing, cmp);
    SortPermutation(passing, cmp);
    forall k ensures RankOf(Sort(passing, cmp), cmp, k) == RankOf(passing, cmp, k) {
      SortStable(passing, cmp, k);
    }
    SortIdempotent(passing, cmp);
  }

  /** Deleting keeps the other products in their order, and an absent id changes nothing. */
  lemma WithoutIdKeepsOrder(products: seq<Product>, id: string)
    ensures IsSubsequence(WithoutId(products, id), products)
    ensures (forall i :: 0 <= i < |products| ==> products[i].id != id) ==> WithoutId(products, id) == products
  {
    FilterIsSubsequence(products, (p: Product) => p.id != id);
    if forall i :: 0 <= i < |products| ==> products[i].id != id {
      FilterAllPass(products, (p: Product) => p.id != id);
    }
  }

  /** Bulk delete keeps the unselected products in their order; deleting twice is deleting once. */
  lemma WithoutSelectedKeepsOrder(products: seq<Product>, selected: seq<string>)
    ensures IsSubsequence(WithoutSelected(products, selected), products)
    ensures WithoutSelected(WithoutSelected(products, selected), selected) == WithoutSelected(products, selected)
  {
    FilterIsSubsequence(products, (p: Product) => p.id !in selected);
    FilterIdempotent(products, (p: Product) => p.id !in selected);
  }

  /** With no discount the shown price is the list price; a discount within 0..100 never raises it. */
  lemma DiscountedPriceBounds(p: Product)
    requires p.price >= 0
    ensures p.discount == 0 ==> DiscountedPriceTimes100(p) == 100 * p.price
    ensures 0 <= p.discount <= 100 ==> 0 <= DiscountedPriceTimes100(p) <= 100 * p.price
  {
    if 0 <= p.discount <= 100 {
      assert p.price * (100 - p.discount) <= p.price * 100;
    }
  }

  function Sample(id: string, name: string, price: int): Product
  {
    Product(id, name, "Steam", price, 0, "Unlimited", "active", 0, Date(2023, 0, 15))
  }

  /** Sorting two rows by name ascending, and by price descending. */
  lemma TwoRowSorts()
    ensures var zeta, alpha := Sample("1", "Zeta", 1000), Sample("2", "Alpha", 2000);
      Sort([zeta, alpha], ProductOrder(SortState("name", Asc))) == [alpha, zeta]
      && Sort([zeta, alpha], ProductOrder(SortState("price", Desc))) == [alpha, zeta]
  {
    var zeta, alpha := Sample("1", "Zeta", 1000), Sample("2", "Alpha", 2000);
    assert [zeta, alpha][1..] == [alpha];
    var byName, byPrice := ProductOrder(SortState("name", Asc)), ProductOrder(SortState("price", Desc));
    assert Sort([alpha], byName) == [alpha] && Sort([alpha], byPrice) == [alpha];
    assert LexCompare("Zeta", "Alpha") == 1;
    assert byName(zeta, alpha) > 0 && byPrice(zeta, alpha) > 0;
    assert Insert(zeta, [alpha], byName) == [alpha] + Insert(zeta, [], byName);
    assert Insert(zeta, [alpha], byPrice) == [alpha] + Insert(zeta, [], byPrice);
  }

  /** The search ignores case: a name holding the query, in any letter case, is found. */
  lemma SearchFindsContainedQuery(p: Product, before: string, word: string, after: string, query: string)
    requires p.name == before + word + after && ToLower(word) == ToLower(query)
    ensures Matches(p, query, "all", "all")
  {
    var t, q := ToLower(p.name), ToLower(query);
    ToLowerAppend(before + word, after);
    ToLowerAppend(before, word);
    assert t == ToLower(before) + q + ToLower(after);
    assert t[|before|..|before| + |q|] == q;
    assert OccursAt(t, q, |before|);
    IncludesIff(t, q);
  }

  /** A product whose lower-cased name lacks some character of the lower-cased query is not shown. */
  lemma SearchMissesWithoutCharacter(p: Product, query: string, status: string, platform: string, j: int)
    requires 0 <= j < |query| && LowerChar(query[j]) !in ToLower(p.name)
    ensures !Matches(p, query, status, platform)
  {
    var t, q := ToLower(p.name), ToLower(query);
    IncludesIff(t, q);
    forall i ensures !OccursAt(t, q, i) {
      OccursAtContains(t, q, i, j);
    }
  }

  /**
   * A single delete leaves the deleted id selected, so a following bulk
   * delete reports more products than it removes.
   */
  lemma StaleSelectionAfterDelete()
    ensures var store := [Sample("3", "A", 100), Sample("4", "B", 200)];
      var selected := SelectAll(true, Ids(store));
      var afterOne := WithoutId(store, "3");
      "3" in selected && (forall i :: 0 <= i < |afterOne| ==> afterOne[i].id != "3")
      && |WithoutSelected(afterOne, selected)| == 0 && |afterOne| - 0 < |selected|
  {
    var store := [Sample("3", "A", 100), Sample("4", "B", 200)];
    assert Ids(store) == ["3", "4"];
    WithoutFirstOfPair(store[0], store[1]);
    WithoutSelectedSelf(store[1], ["3", "4"]);
  }

  lemma WithoutFirstOfPair(a: Product, b: Product)
    requires a.id != b.id
    ensures WithoutId([a, b], a.id) == [b]
  {
    assert [a, b][1..] == [b];
  }

  lemma WithoutSelectedSelf(b: Product, selected: seq<string>)
    requires b.id in selected
    ensures WithoutSelected([b], selected) == []
  {
    assert [b][1..] == [];
  }

  // ------------------------------------------------------------ the page

  /** The page's state: the store, the criteria, the selection and the sort. */
  class ProductsPage {
    var products: seq<Product>
    var searchQuery: string
    var statusFilter: string
    var platformFilter: string
    var selectedProducts: seq<string>
    var sort: SortState

    /** The state after the products are loaded: no criteria, nothing selected, newest first. */
    constructor (loaded: seq<Product>)
      ensures products == loaded && selectedProducts == []
      ensures searchQuery == "" && statusFilter == "all" && platformFilter == "all"
      ensures sort == SortState("dateAdded", Desc)
    {
      products := loaded;
      searchQuery := "";
      statusFilter := "all";
      platformFilter := "all";
      selectedProducts := [];
      sort := SortState("dateAdded", Desc);
    }

    function FilteredProducts(): seq<Product>
      reads this
    {
      Displayed(products, searchQuery, statusFilter, platformFilter, sort)
    }

    /** The header checkbox state. */
    function AllSelected(): bool
      reads this
    {
      HeaderChecked(|FilteredProducts()|, |selectedProducts|)
    }

    method SetSearchQuery(q: string)
      modifies this
      ensures searchQuery == q
      ensures products == old(products) && statusFilter == old(statusFilter) && platformFilter == old(platformFilter)
      ensures selectedProducts == old(selectedProducts) && sort == old(sort)
    {
      searchQuery := q;
    }

    method SetStatusFilter(s: string)
      modifies this
      ensures statusFilter == s
      ensures products == old(products) && searchQuery == old(searchQuery) && platformFilter == old(platformFilter)
      ensures selectedProducts == old(selectedProducts) && sort == old(sort)
    {
      statusFilter := s;
    }

    method SetPlatformFilter(pl: string)
      modifies this
      ensures platformFilter == pl
      ensures products == old(products) && searchQuery == old(searchQuery) && statusFilter == old(statusFilter)
      ensures selectedProducts == old(selectedProducts) && sort == old(sort)
    {
      platformFilter := pl;
    }

    method HandleSort(field: string)
      modifies this
      ensures sort == NextSort(old(sort), field)
      ensures products == old(products) && searchQuery == old(searchQuery) && statusFilter == old(statusFilter)
      ensures platformFilter == old(platformFilter) && selectedProducts == old(selectedProducts)
    {
      if sort.field == field {
        sort := SortState(field, Flip(sort.direction));
      } else {
        sort := SortState(field, Asc);
      }
    }

    /** Selects the visible ids in display order, or clears the selection. */
    method HandleSelectAll(checked: bool)
      modifies this
      ensures selectedProducts == SelectAll(checked, Ids(old(FilteredProducts())))
      ensures checked ==> (AllSelected() <==> |FilteredProducts()| > 0)
      ensures !checked ==> !AllSelected()
      ensures products == old(products) && searchQuery == old(searchQuery) && statusFilter == old(statusFilter)
      ensures platformFilter == old(platformFilter) && sort == old(sort)
    {
      if checked {
        selectedProducts := Ids(FilteredProducts());
      } else {
        selectedProducts := [];
      }
    }

    method HandleSelectProduct(id: string, checked: bool)
      modifies this
      ensures selectedProducts == SelectOne(old(selectedProducts), id, checked)
      ensures checked <==> id in selectedProducts
      ensures products == old(products) && searchQuery == old(searchQuery) && statusFilter == old(statusFilter)
      ensures platformFilter == old(platformFilter) && sort == old(sort)
    {
      if checked {
        selectedProducts := selectedProducts + [id];
      } else {
        selectedProducts := RemoveAll(selectedProducts, id);
      }
    }

    /** Removes the product; the selection is left as it is. */
    method HandleDeleteProduct(id: string)
      modifies this
      ensures products == WithoutId(old(products), id)
      ensures forall i :: 0 <= i < |products| ==> products[i].id != id
      ensures selectedProducts == old(selectedProducts)
      ensures searchQuery == old(searchQuery) && statusFilter == old(statusFilter)
      ensures platformFilter == old(platformFilter) && sort == old(sort)
    {
      products := WithoutId(products, id);
    }

    /** Removes every selected product and clears the selection; `reported` is the count the toast shows. */
    method HandleBulkDelete() returns (reported: nat)
      modifies this
      ensures products == WithoutSelected(old(products), old(selectedProducts))
      ensures forall i :: 0 <= i < |products| ==> products[i].id !in old(selectedProducts)
      ensures selectedProducts == [] && reported == |old(selectedProducts)|
      ensures searchQuery == old(searchQuery) && statusFilter == old(statusFilter)
      ensures platformFilter == old(platformFilter) && sort == old(sort)
    {
      reported := |selectedProducts|;
      products := WithoutSelected(products, selectedProducts);
      selectedProducts := [];
    }
  }
}
