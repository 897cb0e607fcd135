/**
 * The shop's filter panel, frontend/src/components/ProductFilters.js: the
 * products the listing returned are narrowed by a search term, a category, a
 * price range and a stock band, then sorted by a chosen key in a chosen
 * direction. Everything here is a value computed from the panel's state.
 */
module ProductFilters {
  import opened Wrappers
  import opened Sequences
  import opened Text
  import opened Records

  /** The stock drop-down: `'all'`, `'in-stock'`, `'low-stock'`, `'out-of-stock'`. */
  datatype StockBand = AnyStock | InStock | LowStock | OutOfStock

  /** The sort drop-down; any value other than the first three sorts by name. */
  datatype SortKey = ByName | ByPrice | ByStock | ByCategory

  datatype SortOrder = Asc | Desc

  /**
   * The panel's state. An empty price box is `None`; a filled one holds
   * the bound in cents.
   */
  datatype Filters = Filters(
    searchTerm: string,
    selectedCategory: string,
    priceMin: Option<int>,
    priceMax: Option<int>,
    stockFilter: StockBand,
    sortBy: SortKey,
    sortOrder: SortOrder)

  /** The `low-stock` band is a fixed line, not the product's own threshold. */
  const LowStockLine: int := 10

  /** `field?.toLowerCase().includes(term.toLowerCase())`: a NULL field never matches. */
  predicate FieldHolds(field: Option<string>, term: string)
  {
    field.Some? && Contains(ToLower(field.value), ToLower(term))
  }

  predicate MatchesSearch(term: string, p: Product)
  {
    term == "" || Contains(ToLower(p.name), ToLower(term)) || FieldHolds(p.description, term) || FieldHolds(p.category, term)
  }

  predicate MatchesCategory(selected: string, p: Product)
  {
    selected == "all" || p.category == Some(selected)
  }

  predicate MatchesPrice(priceMin: Option<int>, priceMax: Option<int>, p: Product)
  {
    (priceMin.None? || p.price >= priceMin.value) && (priceMax.None? || p.price <= priceMax.value)
  }

  predicate MatchesStock(band: StockBand, p: Product)
  {
    match band
    case AnyStock => true
    case InStock => p.stock > 0
    case LowStock => p.stock > 0 && p.stock <= LowStockLine
    case OutOfStock => p.stock == 0
  }

  /** The callback of `products.filter`: all five conditions at once. */
  predicate Matches(f: Filters, p: Product)
  {
    && MatchesSearch(f.searchTerm, p)
    && MatchesCategory(f.selectedCategory, p)
    && MatchesPrice(f.priceMin, f.priceMax, p)
    && MatchesStock(f.stockFilter, p)
  }

  function Matching(f: Filters): ((nat, Product)) -> bool
  {
    (row: (nat, Product)) => Matches(f, row.1)
  }

  /** `a.category || ''`. */
  function CategoryKey(p: Product): string
  {
    if p.category.Some? then p.category.value else ""
  }

  /** `aValue < bValue` for the selected key. */
  predicate KeyLess(key: SortKey, a: Product, b: Product)
  {
    match key
    case ByPrice => a.price < b.price
    case ByStock => a.stock < b.stock
    case ByCategory => StrLt(CategoryKey(a), CategoryKey(b))
    case ByName => StrLt(ToLower(a.name), ToLower(b.name))
  }

  /** `aValue <= bValue` for the selected key. */
  predicate KeyLe(key: SortKey, a: Product, b: Product)
  {
    match key
    case ByPrice => a.price <= b.price
    case ByStock => a.stock <= b.stock
    case ByCategory => StrLe(CategoryKey(a), CategoryKey(b))
    case ByName => StrLe(ToLower(a.name), ToLower(b.name))
  }

  /** The comparator handed to `sort`: negative, positive or zero. */
  function Compare(key: SortKey, order: SortOrder, a: Product, b: Product): int
  {
    if KeyLess(key, a, b) then (if order == Asc then -1 else 1)
    else if KeyLess(key, b, a) then (if order == Asc then 1 else -1)
    else 0
  }

  /** `a` may stand before `b` in the sorted array when the comparator does not put it after. */
  function InOrder(f: Filters): ((nat, Product), (nat, Product)) -> bool
  {
    (a: (nat, Product), b: (nat, Product)) => Compare(f.sortBy, f.sortOrder, a.1, b.1) <= 0
  }

  /** `KeyLess` is the strict part of `KeyLe`. */
  lemma KeyLessIsNotLe(key: SortKey, a: Product, b: Product)
    ensures KeyLess(key, a, b) <==> !KeyLe(key, b, a)
  {
    match key
    case ByPrice =>
    case ByStock =>
    case ByCategory => StrLtIsNotLe(CategoryKey(a), CategoryKey(b));
    case ByName => StrLtIsNotLe(ToLower(a.name), ToLower(b.name));
  }

  /**
   * The comparator lets `a` precede `b` exactly when `a`'s key is at most
   * `b`'s in ascending order, and at least `b`'s in descending order.
   */
  lemma InOrderIff(f: Filters, a: (nat, Product), b: (nat, Product))
    ensures InOrder(f)(a, b) <==> if f.sortOrder == Asc then KeyLe(f.sortBy, a.1, b.1) else KeyLe(f.sortBy, b.1, a.1)
  {
    KeyLessIsNotLe(f.sortBy, a.1, b.1);
    KeyLessIsNotLe(f.sortBy, b.1, a.1);
    KeyLeTotal(f.sortBy, a.1, b.1);
    assert InOrder(f)(a, b) <==> Compare(f.sortBy, f.sortOrder, a.1, b.1) <= 0;
  }

  lemma KeyLeTotal(key: SortKey, a: Product, b: Product)
    ensures KeyLe(key, a, b) || KeyLe(key, b, a)
  {
    match key
    case ByPrice =>
    case ByStock =>
    case ByCategory => StrLeTotal(CategoryKey(a), CategoryKey(b));
    case ByName => StrLeTotal(ToLower(a.name), ToLower(b.name));
  }

  lemma KeyLeTrans(key: SortKey, a: Product, b: Product, c: Product)
    requires KeyLe(key, a, b) && KeyLe(key, b, c)
    ensures KeyLe(key, a, c)
  {
    match key
    case ByPrice =>
    case ByStock =>
    case ByCategory => StrLeTrans(CategoryKey(a), CategoryKey(b), CategoryKey(c));
    case ByName => StrLeTrans(ToLower(a.name), ToLower(b.name), ToLower(c.name));
  }

  /** Whatever the key and direction, the comparator is one a sort can use. */
  lemma InOrderPreorder(f: Filters)
    ensures TotalPreorder(InOrder(f))
  {
    forall a, b ensures InOrder(f)(a, b) || InOrder(f)(b, a) {
      InOrderIff(f, a, b);
      InOrderIff(f, b, a);
      KeyLeTotal(f.sortBy, a.1, b.1);
    }
    forall a, b, c | InOrder(f)(a, b) && InOrder(f)(b, c) ensures InOrder(f)(a, c) {
      InOrderIff(f, a, b);
      InOrderIff(f, b, c);
      InOrderIff(f, a, c);
      if f.sortOrder == Asc {
        KeyLeTrans(f.sortBy, a.1, b.1, c.1);
      } else {
        KeyLeTrans(f.sortBy, c.1, b.1, a.1);
      }
    }
  }

  /**
   * `filteredProducts`: the products that match every filter, rearranged
   * into the comparator's order.
   */
  function FilteredProducts(products: seq<(nat, Product)>, f: Filters): (r: seq<(nat, Product)>)
    ensures multiset(r) == multiset(Filter(products, Matching(f)))
    ensures forall row :: row in r <==> row in products && Matches(f, row.1)
    ensures SortedBy(r, InOrder(f))
  {
    InOrderPreorder(f);
    var kept := Filter(products, Matching(f));
    var r := SortBy(kept, InOrder(f));
    assert forall row :: row in r <==> row in multiset(r);
    assert forall row :: row in kept <==> row in multiset(kept);
    r
  }

  /** Read through the keys: ascending means non-decreasing keys, descending non-increasing ones. */
  lemma FilteredOrder(products: seq<(nat, Product)>, f: Filters, i: int, j: int)
    requires 0 <= i < j < |FilteredProducts(products, f)|
    ensures var r := FilteredProducts(products, f);
      if f.sortOrder == Asc then KeyLe(f.sortBy, r[i].1, r[j].1) else KeyLe(f.sortBy, r[j].1, r[i].1)
  {
    var r := FilteredProducts(products, f);
    assert InOrder(f)(r[i], r[j]);
    InOrderIff(f, r[i], r[j]);
  }

  /** A non-empty search term is found, case-folded, in the name, the description or the category. */
  lemma SearchHit(products: seq<(nat, Product)>, f: Filters, row: (nat, Product))
    requires f.searchTerm != ""
    requires row in FilteredProducts(products, f)
    ensures var t := ToLower(f.searchTerm);
      || (exists i :: OccursAt(ToLower(row.1.name), t, i))
      || (row.1.description.Some? && exists i :: OccursAt(ToLower(row.1.description.value), t, i))
      || (row.1.category.Some? && exists i :: OccursAt(ToLower(row.1.category.value), t, i))
  {
    var t := ToLower(f.searchTerm);
    ContainsIff(ToLower(row.1.name), t);
    if row.1.description.Some? {
      ContainsIff(ToLower(row.1.description.value), t);
    }
    if row.1.category.Some? {
      ContainsIff(ToLower(row.1.category.value), t);
    }
  }

  /** Case does not matter: the search folds both sides, so a term and its lower-case form select alike. */
  lemma SearchIgnoresCase(term: string, p: Product)
    ensures MatchesSearch(term, p) <==> MatchesSearch(ToLower(term), p)
  {
    ToLowerIdempotent(term);
    if term == "" {
    } else {
      assert ToLower(term) != "";
    }
  }

  lemma ToLowerIdempotent(s: string)
    ensures ToLower(ToLower(s)) == ToLower(s)
  {
    assert forall i :: 0 <= i < |s| ==> LowerChar(LowerChar(s[i])) == LowerChar(s[i]);
  }

  /** Every low-stock product is in stock, and no in-stock product is out of stock. */
  lemma BandsNest(p: Product)
    ensures MatchesStock(LowStock, p) ==> MatchesStock(InStock, p)
    ensures !(MatchesStock(InStock, p) && MatchesStock(OutOfStock, p))
    ensures p.stock >= 0 ==> MatchesStock(InStock, p) != MatchesStock(OutOfStock, p)
  {
  }

  /** `clearFilters`. */
  function ClearFilters(): (f: Filters)
    ensures f.searchTerm == "" && f.selectedCategory == "all"
    ensures f.priceMin.None? && f.priceMax.None? && f.stockFilter == AnyStock
    ensures f.sortBy == ByName && f.sortOrder == Asc
  {
    Filters("", "all", None, None, AnyStock, ByName, Asc)
  }

  /** `hasActiveFilters`: some narrowing filter is set; the sort does not count. */
  function HasActiveFilters(f: Filters): (active: bool)
    ensures !active ==> forall p :: Matches(f, p)
  {
    f.searchTerm != "" || f.selectedCategory != "all" || f.priceMin.Some? || f.priceMax.Some? || f.stockFilter != AnyStock
  }

  /** After clearing, no filter is active. */
  lemma ClearedInactive()
    ensures !HasActiveFilters(ClearFilters())
  {
  }

  /** With no active filter every product is shown: the result is a rearrangement of the input. */
  lemma InactiveShowsAll(products: seq<(nat, Product)>, f: Filters)
    requires !HasActiveFilters(f)
    ensures multiset(FilteredProducts(products, f)) == multiset(products)
    ensures |FilteredProducts(products, f)| == |products|
  {
    FilterEverything(products, Matching(f));
  }

  /** After clearing, the products appear sorted by lower-cased name, ascending. */
  lemma ClearedSortsByName(products: seq<(nat, Product)>, i: int, j: int)
    requires 0 <= i < j < |FilteredProducts(products, ClearFilters())|
    ensures var r := FilteredProducts(products, ClearFilters());
      StrLe(ToLower(r[i].1.name), ToLower(r[j].1.name))
  {
    FilteredOrder(products, ClearFilters(), i, j);
  }

  /** Filtering by a predicate every element meets keeps the sequence as it is. */
  lemma {:induction false} FilterEverything<T(!new)>(s: seq<T>, keep: T -> bool)
    requires forall x :: x in s ==> keep(x)
    ensures Filter(s, keep) == s
  {
    if s != [] {
      assert s == [s[0]] + s[1..];
      FilterEverything(s[1..], keep);
    }
  }
}
