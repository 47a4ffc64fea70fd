/**
 * The home page's search: a blank query shows the whole menu, any other
 * query keeps, in menu order, the entries whose name, description or
 * category contains it, ignoring case.
 */
module HomePage {
  import opened Prelude
  import opened Text
  import opened Catalog
  import Carousel

  /**
   * The `filter` callback: the lowered query occurs in the lowered name or
   * description, or in the lowered category when there is one
   * (`food.category?.…` is `undefined`, hence false, without it).
   */
  predicate Matches(food: Food, query: string) {
    var q := ToLower(query);
    Contains(ToLower(food.name), q) || Contains(ToLower(food.description), q) ||
    (food.category.Some? && Contains(ToLower(food.category.value), q))
  }

  /** `a` is `b` with some entries dropped and the rest in their original order. */
  predicate IsSubsequence<T(==)>(a: seq<T>, b: seq<T>)
    decreases |b|
  {
    a == [] || (b != [] && ((a[0] == b[0] && IsSubsequence(a[1..], b[1..])) || IsSubsequence(a, b[1..])))
  }

  /** `foods.filter(food => Matches(food, query))`. */
  function FilterFoods(foods: seq<Food>, query: string): (r: seq<Food>)
    ensures forall f :: f in r <==> f in foods && Matches(f, query)
    ensures IsSubsequence(r, foods)
    ensures |r| <= |foods|
  {
    if foods == [] then []
    else
      var rest := FilterFoods(foods[1..], query);
      if Matches(foods[0], query) then
        assert ([foods[0]] + rest)[1..] == rest;
        [foods[0]] + rest
      else rest
  }

  /** Every entry that matches is kept, however many. */
  lemma {:induction false} FilterKeepsEveryMatch(foods: seq<Food>, query: string)
    ensures forall f :: f in foods && Matches(f, query) ==>
              multiset(FilterFoods(foods, query))[f] == multiset(foods)[f]
    ensures forall f :: !Matches(f, query) ==> multiset(FilterFoods(foods, query))[f] == 0
  {
    if foods != [] {
      FilterKeepsEveryMatch(foods[1..], query);
      assert foods == [foods[0]] + foods[1..];
    }
  }

  /** `handleSearch`'s result: the menu itself for a blank query, the filtered menu otherwise. */
  function Search(query: string): (r: seq<Food>) {
    if Trim(query) == "" then SampleFoods else FilterFoods(SampleFoods, query)
  }

  /** An empty or all-whitespace query shows the whole menu in menu order. */
  lemma BlankQueryShowsAll(query: string)
    requires forall i :: 0 <= i < |query| ==> IsJsWhitespace(query[i])
    ensures Search(query) == SampleFoods
  {
    TrimEmptyIff(query);
  }

  /** Any other query shows, in menu order, exactly the menu entries that match it. */
  lemma SearchKeepsMatchesInOrder(query: string)
    requires exists i :: 0 <= i < |query| && !IsJsWhitespace(query[i])
    ensures forall f :: f in Search(query) <==> f in SampleFoods && Matches(f, query)
    ensures IsSubsequence(Search(query), SampleFoods)
  {
    TrimEmptyIff(query);
  }

  /** Without a category, only the name and the description can match. */
  lemma NoCategoryMatchesByText(food: Food, query: string)
    requires food.category.None?
    ensures Matches(food, query) <==>
              Contains(ToLower(food.name), ToLower(query)) || Contains(ToLower(food.description), ToLower(query))
  {
  }

  /**
   * Matching uses the query as typed, not trimmed: an entry with only the
   * name "Nachos" matches "nachos" but not "nachos " with a trailing space.
   */
  lemma QueryIsNotTrimmedForMatching(food: Food)
    requires food.name == "Nachos" && food.description == "" && food.category.None?
    ensures Matches(food, "nachos")
    ensures !Matches(food, "nachos ")
  {
    var name := ToLower(food.name);
    assert name == "nachos";
    assert StartsWith(name, ToLower("nachos"));
    var q := ToLower("nachos ");
    assert |q| == 7;
    if Contains(name, q) {
      ContainsLength(name, q);
    }
    if Contains(ToLower(food.description), q) {
      ContainsLength(ToLower(food.description), q);
    }
  }

  class Home {
    var searchQuery: string
    var filteredFoods: seq<Food>

    /** An empty query and the whole menu. */
    constructor ()
      ensures searchQuery == "" && filteredFoods == SampleFoods
    {
      searchQuery := "";
      filteredFoods := SampleFoods;
    }

    /** `handleSearch(query)`: keep the raw query and show its results. */
    method HandleSearch(query: string)
      modifies this
      ensures searchQuery == query && filteredFoods == Search(query)
    {
      searchQuery := query;
      if Trim(query) == "" {
        filteredFoods := SampleFoods;
      } else {
        filteredFoods := FilterFoods(SampleFoods, query);
      }
    }
  }

  /**
   * Submitting the hero carousel's search box on the home page, which passes
   * its `handleSearch` as `onSearch`: the home page then holds the carousel's
   * query and its results. Without the callback nothing reaches the page.
   */
  method SubmitHeroSearch(carousel: Carousel.CarouselState, home: Home)
    modifies home
    ensures carousel.hasOnSearch ==>
              home.searchQuery == carousel.searchQuery && home.filteredFoods == Search(carousel.searchQuery)
    ensures !carousel.hasOnSearch ==>
              home.searchQuery == old(home.searchQuery) && home.filteredFoods == old(home.filteredFoods)
  {
    var submitted := carousel.HandleSearch();
    if submitted.Some? {
      home.HandleSearch(submitted.value);
    }
  }
}
