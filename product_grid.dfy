/**
 * The product grid's listing pipeline: default the product value to a
 * list, keep the products whose name contains the search term, sort a copy
 * by the chosen option, and cut it to the optional limit.
 */
module ProductGrid {
  import opened Common
  import opened ProductSlice

  /** `Array.isArray(products) ? products : []`; None stands for a value that is not an array. */
  function ProductArray(products: Option<seq<Product>>): (r: seq<Product>)
    ensures products.None? ==> r == []
    ensures products.Some? ==> r == products.value
  {
    if products.Some? then products.value else []
  }

  /** toLowerCase on one character, restricted to ASCII letters. */
  function LowerChar(c: char): char {
    if 'A' <= c <= 'Z' then (c as int + 32) as char else c
  }

  function ToLower(s: string): (r: string)
    ensures |r| == |s| && forall i :: 0 <= i < |s| ==> r[i] == LowerChar(s[i])
  {
    seq(|s|, i requires 0 <= i < |s| => LowerChar(s[i]))
  }

  /** `s.includes(t)`: `t` occurs in `s` at some position. */
  predicate Includes(s: string, t: string): (ok: bool)
    ensures t == [] || t == s ==> ok
    ensures ok ==> |t| <= |s|
    decreases |s|
  {
    (|t| <= |s| && s[..|t|] == t) || (|s| > 0 && Includes(s[1..], t))
  }

  /**
   * The search filter: the lower-cased name contains the lower-cased term.
   * An empty term matches every product, a term never matches a shorter name,
   * and a name matches itself in any mix of case.
   */
  predicate MatchesSearch(p: Product, term: string): (ok: bool)
    ensures term == "" ==> ok
    ensures ok ==> |term| <= |p.name|
    ensures ToLower(term) == ToLower(p.name) ==> ok
  {
    Includes(ToLower(p.name), ToLower(term))
  }

  /** The filter step: the products that match the term, in catalog order. */
  function Filtered(products: seq<Product>, term: string): (r: seq<Product>)
    ensures forall i :: 0 <= i < |r| ==> r[i] in products && MatchesSearch(r[i], term)
    ensures forall i :: 0 <= i < |products| && MatchesSearch(products[i], term) ==> products[i] in r
  {
    Filter(products, (p: Product) => MatchesSearch(p, term))
  }

  lemma FilteredIsSubsequence(products: seq<Product>, term: string)
    ensures IsSubsequence(Filtered(products, term), products)
  {
    FilterIsSubsequence(products, (p: Product) => MatchesSearch(p, term));
  }

  /** An empty search term keeps every product. */
  lemma EmptyTermKeepsAll(products: seq<Product>)
    ensures Filtered(products, "") == products
  {
    FilterKeepsAll(products, (p: Product) => MatchesSearch(p, ""));
  }

  /**
   * The sort options this model covers: "price-low", "price-high", and every
   * other value whose comparator returns 0 ("default" among them).
   */
  datatype SortOption = PriceLow | PriceHigh | Unsorted

  /** The key each comparator orders by: `a.price - b.price`, `b.price - a.price`, or 0. */
  function Rank(order: SortOption, p: Product): int {
    match order
    case PriceLow => p.price
    case PriceHigh => -p.price
    case Unsorted => 0
  }

  predicate IsOrdered(s: seq<Product>, order: SortOption) {
    forall i, j :: 0 <= i < j < |s| ==> Rank(order, s[i]) <= Rank(order, s[j])
  }

  /** Place `x` after every element of `t` whose rank is at most its own. */
  function Insert(t: seq<Product>, x: Product, order: SortOption): (r: seq<Product>)
    ensures |r| == |t| + 1
    ensures multiset(r) == multiset(t) + multiset{x}
  {
    if t == [] then [x]
    else
      var last := t[|t| - 1];
      if Rank(order, last) <= Rank(order, x) then
        assert t + [x] == t[..|t| - 1] + [last] + [x];
        t + [x]
      else
        assert t == t[..|t| - 1] + [last];
        Insert(t[..|t| - 1], x, order) + [last]
  }

  /** Appending an element ranked at least as high as every element keeps a list ordered. */
  lemma AppendOrdered(t: seq<Product>, x: Product, order: SortOption)
    requires IsOrdered(t, order)
    requires forall i :: 0 <= i < |t| ==> Rank(order, t[i]) <= Rank(order, x)
    ensures IsOrdered(t + [x], order)
  {
    var r := t + [x];
    forall i, j | 0 <= i < j < |r|
      ensures Rank(order, r[i]) <= Rank(order, r[j])
    {
      assert r[i] == t[i];
      if j < |t| {
        assert r[j] == t[j];
      }
    }
  }

  /** Every element of an insertion is the inserted one or one of the list's. */
  lemma InsertBound(t: seq<Product>, x: Product, order: SortOption, bound: int)
    requires forall i :: 0 <= i < |t| ==> Rank(order, t[i]) <= bound
    requires Rank(order, x) <= bound
    ensures forall i :: 0 <= i < |Insert(t, x, order)| ==> Rank(order, Insert(t, x, order)[i]) <= bound
  {
    var r := Insert(t, x, order);
    forall i | 0 <= i < |r|
      ensures Rank(order, r[i]) <= bound
    {
      assert r[i] in multiset(r);
      if r[i] != x {
        assert r[i] in multiset(t);
        var j :| 0 <= j < |t| && t[j] == r[i];
      }
    }
  }

  /** Inserting into an ordered list keeps it ordered. */
  lemma {:induction false} InsertOrdered(t: seq<Product>, x: Product, order: SortOption)
    requires IsOrdered(t, order)
    ensures IsOrdered(Insert(t, x, order), order)
  {
    if t == [] {
      return;
    }
    var init, last := t[..|t| - 1], t[|t| - 1];
    if Rank(order, last) <= Rank(order, x) {
      AppendOrdered(t, x, order);
    } else {
      assert IsOrdered(init, order);
      InsertOrdered(init, x, order);
      InsertBound(init, x, order, Rank(order, last));
      AppendOrdered(Insert(init, x, order), last, order);
    }
  }

  /** An element ranked at least as high as the last one goes at the end. */
  lemma InsertAtEnd(t: seq<Product>, x: Product, order: SortOption)
    requires t == [] || Rank(order, t[|t| - 1]) <= Rank(order, x)
    ensures Insert(t, x, order) == t + [x]
  {
  }

  /** `[...filtered].sort(comparator)`: a stable sort by rank. */
  function Sorted(s: seq<Product>, order: SortOption): (r: seq<Product>)
    ensures |r| == |s|
    ensures multiset(r) == multiset(s)
    ensures IsOrdered(r, order)
  {
    if s == [] then []
    else
      assert s == s[..|s| - 1] + [s[|s| - 1]];
      InsertOrdered(Sorted(s[..|s| - 1], order), s[|s| - 1], order);
      Insert(Sorted(s[..|s| - 1], order), s[|s| - 1], order)
  }

  /** The products that share rank `k`. */
  function InClass(order: SortOption, k: int): Product -> bool {
    (p: Product) => Rank(order, p) == k
  }

  lemma FilterSingleton(x: Product, keep: Product -> bool)
    ensures Filter([x], keep) == if keep(x) then [x] else []
  {
    assert [x][..0] == [];
  }

  /** The sequence step behind stability: of `xs` and `ls`, one is empty, so their order does not matter. */
  lemma AppendEither<T>(a: seq<T>, xs: seq<T>, ls: seq<T>)
    requires xs == [] || ls == []
    ensures a + xs + ls == a + ls + xs
  {
    if xs == [] {
      assert a + xs + ls == a + ls;
    } else {
      assert a + xs + ls == a + xs;
    }
  }

  lemma {:induction false} InsertKeepsClassOrder(t: seq<Product>, x: Product, order: SortOption, k: int)
    ensures Filter(Insert(t, x, order), InClass(order, k))
      == Filter(t, InClass(order, k)) + (if Rank(order, x) == k then [x] else [])
  {
    var keep := InClass(order, k);
    FilterSingleton(x, keep);
    if t == [] {
      assert Filter(t, keep) == [];
    } else if Rank(order, t[|t| - 1]) <= Rank(order, x) {
      assert Insert(t, x, order) == t + [x];
      FilterConcat(t, [x], keep);
    } else {
      var last, init := t[|t| - 1], t[..|t| - 1];
      assert t == init + [last];
      InsertKeepsClassOrder(init, x, order, k);
      ShiftKeepsClassOrder(init, last, x, order, k);
    }
  }

  lemma ShiftKeepsClassOrder(init: seq<Product>, last: Product, x: Product, order: SortOption, k: int)
    requires Rank(order, x) < Rank(order, last)
    requires Filter(Insert(init, x, order), InClass(order, k)) == Filter(init, InClass(order, k)) + Filter([x], InClass(order, k))
    ensures Filter(Insert(init + [last], x, order), InClass(order, k))
      == Filter(init + [last], InClass(order, k)) + Filter([x], InClass(order, k))
  {
    var keep := InClass(order, k);
    var t := init + [last];
    assert t[..|t| - 1] == init && t[|t| - 1] == last;
    var r' := Insert(init, x, order);
    assert Insert(t, x, order) == r' + [last];
    FilterConcat(r', [last], keep);
    FilterConcat(init, [last], keep);
    FilterSingleton(last, keep);
    FilterSingleton(x, keep);
    AppendEither(Filter(init, keep), Filter([x], keep), Filter([last], keep));
  }

  /** The sort is stable: products of equal rank keep their relative order. */
  lemma {:induction false} SortedIsStable(s: seq<Product>, order: SortOption, k: int)
    ensures Filter(Sorted(s, order), InClass(order, k)) == Filter(s, InClass(order, k))
  {
    if s != [] {
      var init := s[..|s| - 1];
      SortedIsStable(init, order, k);
      InsertKeepsClassOrder(Sorted(init, order), s[|s| - 1], order, k);
    }
  }

  /** A list already in order comes back unchanged. */
  lemma {:induction false} SortedOfOrdered(s: seq<Product>, order: SortOption)
    requires IsOrdered(s, order)
    ensures Sorted(s, order) == s
  {
    if s != [] {
      var init, last := s[..|s| - 1], s[|s| - 1];
      assert s == init + [last];
      assert IsOrdered(init, order);
      SortedOfOrdered(init, order);
      InsertAtEnd(init, last, order);
    }
  }

  /** With the "default" comparator (always 0) the filtered order is kept. */
  lemma UnsortedKeepsOrder(s: seq<Product>)
    ensures Sorted(s, Unsorted) == s
  {
    SortedOfOrdered(s, Unsorted);
  }

  /** "price-low" lists prices in non-decreasing order, "price-high" in non-increasing order. */
  lemma PriceOrders(s: seq<Product>)
    ensures forall i, j :: 0 <= i < j < |s| ==> Sorted(s, PriceLow)[i].price <= Sorted(s, PriceLow)[j].price
    ensures forall i, j :: 0 <= i < j < |s| ==> Sorted(s, PriceHigh)[i].price >= Sorted(s, PriceHigh)[j].price
  {
    var low, high := Sorted(s, PriceLow), Sorted(s, PriceHigh);
    assert forall i, j :: 0 <= i < j < |s| ==> Rank(PriceLow, low[i]) <= Rank(PriceLow, low[j]);
    assert forall i, j :: 0 <= i < j < |s| ==> Rank(PriceHigh, high[i]) <= Rank(PriceHigh, high[j]);
  }

  /**
   * `limit ? list.slice(0, limit) : list`: no limit or 0 shows everything; a
   * positive limit keeps at most that many from the front; a negative one,
   * as slice does, drops that many from the end.
   */
  function Limited(s: seq<Product>, limit: Option<int>): (r: seq<Product>)
    ensures limit.None? || limit == Some(0) ==> r == s
    ensures limit.Some? && limit.value > 0 ==>
      |r| == (if limit.value < |s| then limit.value else |s|) && r == s[..|r|]
    ensures limit.Some? && limit.value < 0 ==>
      |r| == (if |s| + limit.value > 0 then |s| + limit.value else 0) && r == s[..|r|]
  {
    if limit.None? || limit.value == 0 then s
    else if limit.value > 0 then s[..if limit.value < |s| then limit.value else |s|]
    else s[..if |s| + limit.value > 0 then |s| + limit.value else 0]
  }

  /**
   * displayProducts: the whole pipeline. What is shown is a front part of the
   * matching products in the chosen order: without a limit all of them, with
   * a positive limit the first `limit` of them, with a negative one all but
   * the last `-limit`.
   */
  function DisplayProducts(products: Option<seq<Product>>, term: string, order: SortOption, limit: Option<int>): (r: seq<Product>)
    ensures |r| <= |ProductArray(products)|
    ensures forall i :: 0 <= i < |r| ==> r[i] in ProductArray(products) && MatchesSearch(r[i], term)
    ensures limit.Some? && limit.value > 0 ==> |r| <= limit.value
    ensures r <= Sorted(Filtered(ProductArray(products), term), order)
    ensures IsOrdered(r, order)
    ensures limit.None? || limit == Some(0) ==> multiset(r) == multiset(Filtered(ProductArray(products), term))
    ensures var n := |Filtered(ProductArray(products), term)|;
      limit.Some? && limit.value > 0 ==> |r| == (if limit.value < n then limit.value else n)
    ensures var n := |Filtered(ProductArray(products), term)|;
      limit.Some? && limit.value < 0 ==> |r| == (if n + limit.value > 0 then n + limit.value else 0)
  {
    var all := ProductArray(products);
    var filtered := Filtered(all, term);
    var sorted := Sorted(filtered, order);
    var shown := Limited(sorted, limit);
    assert shown <= sorted;
    PipelineMatches(all, filtered, sorted, shown, term);
    PrefixOrdered(sorted, shown, order);
    shown
  }

  /** A front part of an ordered list is ordered. */
  lemma PrefixOrdered(s: seq<Product>, t: seq<Product>, order: SortOption)
    requires IsOrdered(s, order) && t <= s
    ensures IsOrdered(t, order)
  {
    forall i, j | 0 <= i < j < |t|
      ensures Rank(order, t[i]) <= Rank(order, t[j])
    {
      assert t[i] == s[i] && t[j] == s[j];
    }
  }

  /** A prefix of a permutation of the filtered list holds only matching products from the catalog. */
  lemma PipelineMatches(all: seq<Product>, filtered: seq<Product>, sorted: seq<Product>, shown: seq<Product>, term: string)
    requires |filtered| <= |all|
    requires forall i :: 0 <= i < |filtered| ==> filtered[i] in all && MatchesSearch(filtered[i], term)
    requires multiset(sorted) == multiset(filtered) && |sorted| == |filtered|
    requires shown <= sorted
    ensures |shown| <= |all|
    ensures forall i :: 0 <= i < |shown| ==> shown[i] in all && MatchesSearch(shown[i], term)
  {
    forall i | 0 <= i < |shown|
      ensures shown[i] in all && MatchesSearch(shown[i], term)
    {
      assert shown[i] == sorted[i];
      assert sorted[i] in multiset(filtered);
      var k :| 0 <= k < |filtered| && filtered[k] == shown[i];
    }
  }

  /** With no search term, the default order and no limit, the grid shows the catalog as it is. */
  lemma DefaultViewShowsCatalog(products: Option<seq<Product>>)
    ensures DisplayProducts(products, "", Unsorted, None) == ProductArray(products)
  {
    EmptyTermKeepsAll(ProductArray(products));
    UnsortedKeepsOrder(ProductArray(products));
  }
}
