/** The decision logic of the recipes screen: the alert listing the first expiring
    items, the sections shown per category, and the arrow buttons that step a
    recipe carousel. */
module RecipesScreen {
  import opened Numeric
  import opened Wrappers
  import opened Text
  import opened Collections
  import opened Entities
  import opened Expiry
  import opened RecipeRepository

  /** The most items the alert lists. */
  const AlertLimit := 3

  /** One line of the alert; the day count is the screen's `getDaysUntilExpiration`,
      the same truncating count as on the other screens. */
  function AlertLine(item: FoodItem, now: Int64): string
  {
    "• " + item.name + " (expires in " + FormatInt(DaysUntilExpiration(item.expirationDate, now)) + " days)"
  }

  /** The "use these ingredients soon" card: absent when nothing is expiring,
      otherwise one line for each of the first three expiring items, in order. */
  function ExpiringAlert(expiringItems: seq<FoodItem>, now: Int64): (lines: Option<seq<string>>)
    ensures lines.None? <==> expiringItems == []
    ensures lines.Some? ==> |lines.value| == if |expiringItems| < AlertLimit then |expiringItems| else AlertLimit
    ensures lines.Some? ==> forall k :: 0 <= k < |lines.value| ==> lines.value[k] == AlertLine(expiringItems[k], now)
  {
    if expiringItems == [] then None
    else
      var shown := Take(expiringItems, AlertLimit);
      Some(seq(|shown|, k requires 0 <= k < |shown| => AlertLine(shown[k], now)))
  }

  /** Items past the third do not change the alert. */
  lemma AlertIgnoresTail(items: seq<FoodItem>, more: seq<FoodItem>, now: Int64)
    requires |items| >= AlertLimit
    ensures ExpiringAlert(items + more, now) == ExpiringAlert(items, now)
  {
    var a, b := ExpiringAlert(items + more, now), ExpiringAlert(items, now);
    assert |a.value| == |b.value|;
    forall k | 0 <= k < |a.value| ensures a.value[k] == b.value[k] {
      assert (items + more)[k] == items[k];
    }
    assert a.value == b.value;
  }

  /** A category's section, with its carousel, is drawn exactly when the category
      has recipes. */
  function RenderedSections(categoryRecipes: seq<(string, seq<Recipe>)>): (r: seq<(string, seq<Recipe>)>)
    ensures |r| <= |categoryRecipes|
    ensures forall c :: c in r <==> c in categoryRecipes && c.1 != []
  {
    Filter(categoryRecipes, (c: (string, seq<Recipe>)) => c.1 != [])
  }

  /** The left arrow: back one recipe unless at the first. */
  function PreviousIndex(index: int): (r: int)
    ensures index > 0 ==> r == index - 1
    ensures index <= 0 ==> r == index
  {
    if index > 0 then index - 1 else index
  }

  /** The right arrow: on one recipe unless at the last (`size - 1`). */
  function NextIndex(index: int, size: int): (r: int)
    ensures index < size - 1 ==> r == index + 1
    ensures index >= size - 1 ==> r == index
  {
    if index < size - 1 then index + 1 else index
  }

  /** An index on a recipe (or 0 for an empty carousel). */
  predicate InCarousel(index: int, size: int)
  {
    0 <= index && (index < size || index == 0)
  }

  /** Both arrows keep the index on a recipe. */
  lemma ArrowsStayInCarousel(index: int, size: int)
    requires InCarousel(index, size)
    ensures InCarousel(PreviousIndex(index), size)
    ensures InCarousel(NextIndex(index, size), size)
  {
  }

  /** Right then left returns to the same recipe, whenever right moved. */
  lemma NextThenPrevious(index: int, size: int)
    requires 0 <= index < size - 1
    ensures PreviousIndex(NextIndex(index, size)) == index
  {
  }

  /** The first visible index of one carousel, as its arrow buttons move it. */
  class Carousel {
    const size: nat
    var index: int

    ghost predicate Valid()
      reads this
    {
      InCarousel(index, size)
    }

    constructor (size: nat)
      ensures Valid() && this.size == size && index == 0
    {
      this.size := size;
      index := 0;
    }

    /** The left arrow. */
    method OnPrevious()
      requires Valid()
      modifies this
      ensures Valid()
      ensures index == PreviousIndex(old(index))
    {
      if index > 0 {
        index := index - 1;
      }
    }

    /** The right arrow. */
    method OnNext()
      requires Valid()
      modifies this
      ensures Valid()
      ensures index == NextIndex(old(index), size)
    {
      if index < size - 1 {
        index := index + 1;
      }
    }
  }
}
