/**
 * The browse screen: the context's dishes filtered by the chosen category,
 * and the average price of each of the three categories.
 */
module FullMenu {
  import opened Lists
  import opened Dishes

  /** The filter value that shows every dish. */
  const ShowAll: string := "All"

  /** The categories averages are computed for, in the order they are computed. */
  const Categories: seq<string> := ["Starter", "Main Course", "Dessert"]

  /** The filter's test `dish => dish.category === category`. */
  function InCategory(category: string): Dish -> bool {
    (d: Dish) => d.category == category
  }

  /** `dishes.filter(dish => dish.category === category)`: the category's dishes, in order. */
  function OfCategory(dishes: seq<Dish>, category: string): (r: seq<Dish>)
    ensures forall d :: d in r <==> d in dishes && d.category == category
    ensures IsSubsequence(r, dishes)
  {
    FilterIsSubsequence(dishes, InCategory(category));
    Filter(dishes, InCategory(category))
  }

  /** The filter keeps every copy of a dish of the category and no copy of any other dish. */
  lemma OfCategoryCounts(dishes: seq<Dish>, category: string)
    ensures forall d :: multiset(OfCategory(dishes, category))[d] ==
                        if d.category == category then multiset(dishes)[d] else 0
  {
    FilterCounts(dishes, InCategory(category));
  }

  /** `dishes.reduce((sum, dish) => sum + dish.price, 0)`, a left fold. */
  function Total(dishes: seq<Dish>): real {
    if dishes == [] then 0.0 else Total(dishes[..|dishes| - 1]) + dishes[|dishes| - 1].price
  }

  /** The fold adds prices however the list is split: the total of two lists is the sum of their totals. */
  lemma {:induction false} TotalAppend(a: seq<Dish>, b: seq<Dish>)
    ensures Total(a + b) == Total(a) + Total(b)
  {
    if b == [] {
      assert a + b == a;
    } else {
      var init := b[..|b| - 1];
      assert (a + b)[..|a + b| - 1] == a + init;
      assert (a + b)[|a + b| - 1] == b[|b| - 1];
      TotalAppend(a, init);
    }
  }

  /** The average price of `dishes`; a list with no dishes averages 0. */
  function Mean(dishes: seq<Dish>): (r: real)
    ensures |dishes| == 0 ==> r == 0.0
    ensures |dishes| > 0 ==> r * (|dishes| as real) == Total(dishes)
  {
    if |dishes| > 0 then Total(dishes) / (|dishes| as real) else 0.0
  }

  /** Prices within `[lo, hi]` add up to between `n * lo` and `n * hi`. */
  lemma {:induction false} TotalBetween(dishes: seq<Dish>, lo: real, hi: real)
    requires forall d :: d in dishes ==> lo <= d.price <= hi
    ensures (|dishes| as real) * lo <= Total(dishes) <= (|dishes| as real) * hi
  {
    if dishes != [] {
      var init, last := dishes[..|dishes| - 1], dishes[|dishes| - 1];
      assert last in dishes;
      forall d | d in init
        ensures lo <= d.price <= hi
      {
        assert d in dishes;
      }
      TotalBetween(init, lo, hi);
      AddOneBetween(|init| as real, Total(init), last.price, lo, hi);
    }
  }

  /** One more summand within `[lo, hi]` keeps a sum of `m` such summands within bounds. */
  lemma AddOneBetween(m: real, t: real, p: real, lo: real, hi: real)
    requires m * lo <= t <= m * hi && lo <= p <= hi
    ensures (m + 1.0) * lo <= t + p <= (m + 1.0) * hi
  {
    assert (m + 1.0) * lo == m * lo + lo;
    assert (m + 1.0) * hi == m * hi + hi;
  }

  /** A product with a positive factor keeps the sign of the other factor. */
  lemma NonNegativeFactor(a: real, n: real)
    requires n > 0.0 && a * n >= 0.0
    ensures a >= 0.0
  {
  }

  /** A category's average lies between its cheapest and its dearest dish. */
  lemma MeanBetween(dishes: seq<Dish>, lo: real, hi: real)
    requires |dishes| > 0
    requires forall d :: d in dishes ==> lo <= d.price <= hi
    ensures lo <= Mean(dishes) <= hi
  {
    TotalBetween(dishes, lo, hi);
    var n, m := |dishes| as real, Mean(dishes);
    assert m * n == Total(dishes);
    assert (m - lo) * n == m * n - lo * n;
    assert (hi - m) * n == hi * n - m * n;
    NonNegativeFactor(m - lo, n);
    NonNegativeFactor(hi - m, n);
  }

  /** A category holding one dish averages that dish's price. */
  lemma LoneDishAverage(d: Dish)
    ensures Mean(OfCategory([d], d.category)) == d.price
  {
    var r := OfCategory([d], d.category);
    assert d in r;
    assert r == [d];
    assert Total([d]) == Total([]) + d.price;
  }

  /** The averages state before any computation. */
  function InitialAverages(): (m: map<string, real>)
    ensures m.Keys == {"Starter", "Main Course", "Dessert"}
    ensures forall c :: c in m ==> m[c] == 0.0
  {
    map["Starter" := 0.0, "Main Course" := 0.0, "Dessert" := 0.0]
  }

  /** The initial averages are those of an empty menu. */
  lemma InitialAveragesOfEmptyMenu()
    ensures forall c :: c in InitialAverages() ==> InitialAverages()[c] == Mean(OfCategory([], c))
  {
  }

  class FullMenuScreen {
    var selectedCategory: string
    var averagePrices: map<string, real>

    /** Mounting: every dish is shown and every average is 0. */
    constructor ()
      ensures selectedCategory == ShowAll
      ensures averagePrices == InitialAverages()
    {
      selectedCategory := ShowAll;
      averagePrices := InitialAverages();
    }

    /** A filter button. */
    method SelectCategory(category: string)
      modifies this
      ensures selectedCategory == category && averagePrices == old(averagePrices)
    {
      selectedCategory := category;
    }

    /** `filteredItems`: the whole list under "All", otherwise exactly the chosen category's dishes, in order. */
    function FilteredItems(dishes: seq<Dish>): (r: seq<Dish>)
      reads this
      ensures selectedCategory == ShowAll ==> r == dishes
      ensures selectedCategory != ShowAll ==>
                && (forall d :: d in r <==> d in dishes && d.category == selectedCategory)
                && IsSubsequence(r, dishes)
                && (forall d: Dish :: d.category == selectedCategory ==> multiset(r)[d] == multiset(dishes)[d])
    {
      if selectedCategory == ShowAll then dishes
      else
        OfCategoryCounts(dishes, selectedCategory);
        OfCategory(dishes, selectedCategory)
    }

    /** `calculateAverages`: fills a fresh dictionary category by category, then stores it. */
    method CalculateAverages(dishes: seq<Dish>)
      modifies this
      ensures averagePrices.Keys == {"Starter", "Main Course", "Dessert"}
      ensures forall c :: c in averagePrices ==> averagePrices[c] == Mean(OfCategory(dishes, c))
      ensures selectedCategory == old(selectedCategory)
    {
      var averages: map<string, real> := map[];
      for i := 0 to |Categories|
        invariant averages.Keys == set k | 0 <= k < i :: Categories[k]
        invariant forall c :: c in averages ==> averages[c] == Mean(OfCategory(dishes, c))
      {
        var category := Categories[i];
        var categoryDishes := OfCategory(dishes, category);
        var total := Total(categoryDishes);
        averages := averages[category := if |categoryDishes| > 0 then total / (|categoryDishes| as real) else 0.0];
      }
      assert averages.Keys == {Categories[0], Categories[1], Categories[2]};
      averagePrices := averages;
    }
  }
}
