/**
 * The product listing: which products match the category filter and the
 * search box, the order they are shown in, and the wishlist of product ids.
 */
module Showcase {
  import opened Wrappers
  import opened Sequences
  import opened Catalog

  // ---------------------------------------------------------------------------
  // Case-insensitive search

  /** Lower case for the ASCII letters; every other character is kept. */
  function LowerChar(c: char): char {
    if 'A' <= c <= 'Z' then (c as int + 32) as char else c
  }

  function Lower(s: string): (r: string)
    ensures |r| == |s|
  {
    seq(|s|, i requires 0 <= i < |s| => LowerChar(s[i]))
  }

  /** String inclusion: `sub` occurs in `s` at some position (the empty string everywhere). */
  predicate Includes(s: string, sub: string)
    ensures Includes(s, sub) ==> |sub| <= |s|
    ensures sub == [] ==> Includes(s, sub)
    decreases |s|
  {
    sub <= s || (|s| > 0 && Includes(s[1..], sub))
  }

  /** Inclusion means an occurrence starting at some index. */
  lemma {:induction false} IncludesAt(s: string, sub: string)
    ensures Includes(s, sub) <==> exists i :: 0 <= i <= |s| && sub <= s[i..]
  {
    if sub <= s {
      assert s[0..] == s;
    } else if |s| > 0 {
      IncludesAt(s[1..], sub);
      if Includes(s[1..], sub) {
        var i :| 0 <= i <= |s[1..]| && sub <= s[1..][i..];
        assert s[1..][i..] == s[i + 1..];
      }
      if exists i :: 0 <= i <= |s| && sub <= s[i..] {
        var i :| 0 <= i <= |s| && sub <= s[i..];
        assert i != 0;
        assert s[1..][i - 1..] == s[i..];
      }
    } else {
      assert forall i :: 0 <= i <= |s| ==> s[i..] == s;
    }
  }

  // ---------------------------------------------------------------------------
  // The filter

  /** "all" is the wildcard; any other filter must equal the category exactly. */
  predicate MatchesCategory(p: Product, activeFilter: string)
    ensures activeFilter == "all" ==> MatchesCategory(p, activeFilter)
    ensures activeFilter != "all" ==> (MatchesCategory(p, activeFilter) <==> p.category == activeFilter)
  {
    activeFilter == "all" || p.category == activeFilter
  }

  /** The lower-cased query occurs somewhere in the lower-cased name or description. */
  predicate MatchesSearch(p: Product, searchQuery: string)
    ensures MatchesSearch(p, searchQuery) <==>
      var name, description, query := Lower(p.name), Lower(p.description), Lower(searchQuery);
      || searchQuery == ""
      || (exists i :: 0 <= i <= |name| && query <= name[i..])
      || (exists i :: 0 <= i <= |description| && query <= description[i..])
  {
    IncludesAt(Lower(p.name), Lower(searchQuery));
    IncludesAt(Lower(p.description), Lower(searchQuery));
    searchQuery == "" ||
    Includes(Lower(p.name), Lower(searchQuery)) ||
    Includes(Lower(p.description), Lower(searchQuery))
  }

  predicate Matches(p: Product, activeFilter: string, searchQuery: string)
    ensures activeFilter == "all" && searchQuery == "" ==> Matches(p, activeFilter, searchQuery)
    ensures Matches(p, activeFilter, searchQuery) && activeFilter != "all" ==> p.category == activeFilter
  {
    MatchesCategory(p, activeFilter) && MatchesSearch(p, searchQuery)
  }

  /** The products that match, in catalog order. */
  function FilterProducts(products: seq<Product>, activeFilter: string, searchQuery: string): (r: seq<Product>)
    ensures forall p :: p in r <==> p in products && Matches(p, activeFilter, searchQuery)
    ensures forall p :: multiset(r)[p] == if Matches(p, activeFilter, searchQuery) then multiset(products)[p] else 0
    ensures IsSubsequence(r, products)
  {
    if products == [] then []
    else
      assert products == [products[0]] + products[1..];
      var rest := FilterProducts(products[1..], activeFilter, searchQuery);
      if Matches(products[0], activeFilter, searchQuery) then [products[0]] + rest else rest
  }

  /** With the wildcard category and an empty search box, every product is shown. */
  lemma {:induction false} FilterKeepsAll(products: seq<Product>)
    ensures FilterProducts(products, "all", "") == products
  {
    if products != [] {
      FilterKeepsAll(products[1..]);
    }
  }

  // ---------------------------------------------------------------------------
  // The orders

  /** The sort keys the listing recognises; any other key keeps catalog order. */
  datatype SortOrder = PriceLow | PriceHigh | Newest

  function SortOrderOf(sortBy: string): (r: Option<SortOrder>)
    ensures r == Some(PriceLow) <==> sortBy == "price-low"
    ensures r == Some(PriceHigh) <==> sortBy == "price-high"
    ensures r == Some(Newest) <==> sortBy == "newest"
  {
    if sortBy == "price-low" then Some(PriceLow)
    else if sortBy == "price-high" then Some(PriceHigh)
    else if sortBy == "newest" then Some(Newest)
    else None
  }

  /** The number whose ascending order each order follows. */
  function Key(o: SortOrder, p: Product): int {
    match o
    case PriceLow => p.price
    case PriceHigh => -(p.price as int)
    case Newest => -p.id
  }

  /**
   * The comparator each order hands to the sort: negative when a goes
   * before b, positive when b goes before a, zero for a tie.
   */
  function Compare(o: SortOrder, a: Product, b: Product): (r: int)
    ensures r == Key(o, a) - Key(o, b)
  {
    match o
    case PriceLow => a.price - b.price
    case PriceHigh => b.price - a.price
    case Newest => b.id - a.id
  }

  /** No pair of products stands in the wrong order for the comparator. */
  predicate SortedBy(s: seq<Product>, o: SortOrder) {
    forall i, j :: 0 <= i < j < |s| ==> Compare(o, s[i], s[j]) <= 0
  }

  /** What each order means for prices and ids. */
  lemma SortedMeaning(s: seq<Product>, o: SortOrder)
    ensures o == PriceLow ==> (SortedBy(s, o) <==> forall i, j :: 0 <= i < j < |s| ==> s[i].price <= s[j].price)
    ensures o == PriceHigh ==> (SortedBy(s, o) <==> forall i, j :: 0 <= i < j < |s| ==> s[i].price >= s[j].price)
    ensures o == Newest ==> (SortedBy(s, o) <==> forall i, j :: 0 <= i < j < |s| ==> s[i].id >= s[j].id)
  {
  }

  /** Newest first with distinct ids is strictly decreasing ids. */
  lemma NewestStrict(s: seq<Product>)
    requires SortedBy(s, Newest)
    requires forall i, j :: 0 <= i < j < |s| ==> s[i].id != s[j].id
    ensures forall i, j :: 0 <= i < j < |s| ==> s[i].id > s[j].id
  {
  }

  /**
   * The comparator puts a after b, so the sort must exchange them. This is
   * `Compare(o, a, b) > 0` named only to serve as the sort's loop guard; it
   * defines no order of its own.
   */
  predicate GoesAfter(o: SortOrder, a: Product, b: Product)
    ensures GoesAfter(o, a, b) <==> Key(o, a) > Key(o, b)
  {
    Compare(o, a, b) > 0
  }

  /** Ascending keys is the comparator's order. */
  lemma KeyOrderSorted(s: seq<Product>, o: SortOrder)
    requires forall i, j :: 0 <= i < j < |s| ==> Key(o, s[i]) <= Key(o, s[j])
    ensures SortedBy(s, o)
  {
  }

  /** Exchanges two elements of the array. */
  method Swap(a: array<Product>, i: nat, j: nat)
    requires i < j < a.Length
    modifies a
    ensures a[..] == old(a[..])[i := old(a[j])][j := old(a[i])]
    ensures multiset(a[..]) == multiset(old(a[..]))
  {
    a[i], a[j] := a[j], a[i];
  }

  /** Sorts the array in place by the comparator of the order; where ties end up is not stated. */
  method SortInPlace(a: array<Product>, o: SortOrder)
    modifies a
    ensures SortedBy(a[..], o)
    ensures multiset(a[..]) == multiset(old(a[..]))
  {
    var i := 0;
    while i < a.Length
      invariant 0 <= i <= a.Length
      invariant forall x, y :: 0 <= x < y < i ==> Key(o, a[x]) <= Key(o, a[y])
      invariant multiset(a[..]) == multiset(old(a[..]))
    {
      var j := i;
      while j > 0 && GoesAfter(o, a[j - 1], a[j])
        invariant 0 <= j <= i
        invariant forall x, y :: 0 <= x < y <= i && x != j && y != j ==> Key(o, a[x]) <= Key(o, a[y])
        invariant forall y :: j < y <= i ==> Key(o, a[j]) < Key(o, a[y])
        invariant multiset(a[..]) == multiset(old(a[..]))
      {
        Swap(a, j - 1, j);
        j := j - 1;
      }
      i := i + 1;
    }
    KeyOrderSorted(a[..], o);
  }

  /**
   * The products the listing shows: the matching products, reordered by the
   * sort key when it is one of the three orders, in catalog order otherwise.
   */
  method FilteredAndSorted(products: seq<Product>, activeFilter: string, searchQuery: string, sortBy: string)
    returns (r: seq<Product>)
    ensures multiset(r) == multiset(FilterProducts(products, activeFilter, searchQuery))
    ensures SortOrderOf(sortBy).Some? ==> SortedBy(r, SortOrderOf(sortBy).value)
    ensures SortOrderOf(sortBy).None? ==> r == FilterProducts(products, activeFilter, searchQuery)
  {
    var filtered := FilterProducts(products, activeFilter, searchQuery);
    match SortOrderOf(sortBy)
    case Some(o) =>
      var a := new Product[|filtered|](i requires 0 <= i < |filtered| => filtered[i]);
      assert a[..] == filtered;
      SortInPlace(a, o);
      r := a[..];
    case None =>
      r := filtered;
  }

  /** Whatever the order, exactly the matching products are shown. */
  lemma ShownIffMatches(products: seq<Product>, activeFilter: string, searchQuery: string, r: seq<Product>)
    requires multiset(r) == multiset(FilterProducts(products, activeFilter, searchQuery))
    ensures forall p :: p in r <==> p in products && Matches(p, activeFilter, searchQuery)
  {
    var f := FilterProducts(products, activeFilter, searchQuery);
    forall p ensures p in r <==> p in f {
      assert p in r <==> p in multiset(r);
      assert p in f <==> p in multiset(f);
    }
  }

  // ---------------------------------------------------------------------------
  // The wishlist

  /** The set with id added when it was absent and removed when it was present. */
  function Toggled(ids: set<int>, id: int): (r: set<int>)
    ensures id in r <==> id !in ids
    ensures forall x :: x != id ==> (x in r <==> x in ids)
  {
    if id in ids then ids - {id} else ids + {id}
  }

  /** Toggling twice gives back the set it started from. */
  lemma ToggleTwice(ids: set<int>, id: int)
    ensures Toggled(Toggled(ids, id), id) == ids
  {
  }

  class Wishlist {
    var ids: set<int>

    /** The wishlist starts empty. */
    constructor ()
      ensures ids == {}
    {
      ids := {};
    }

    /** Copies the set, flips the id in the copy, and installs the copy. */
    method Toggle(id: int)
      modifies this
      ensures ids == Toggled(old(ids), id)
    {
      var next := ids;
      if id in next {
        next := next - {id};
      } else {
        next := next + {id};
      }
      ids := next;
    }
  }
}
