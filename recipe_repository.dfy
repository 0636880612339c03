/** The demo recipe builders the recipe repository answers every search with:
    fixed recipe lists whose titles and summaries are filled in from the query or
    from the first two ingredients. `String.lowercase()` is locale dependent and is
    taken as a parameter. */
module RecipeRepository {
  import opened Wrappers
  import opened Text
  import opened Collections

  datatype InstructionStep = InstructionStep(number: int, step: string)
  datatype InstructionSet = InstructionSet(steps: seq<InstructionStep>)
  datatype Ingredient = Ingredient(id: int, name: string, original: string)

  /** A recipe as the screens show it; summary, instructions and ingredients are
      optional and absent by default. */
  datatype Recipe = Recipe(
    id: int,
    title: string,
    image: string,
    readyInMinutes: int,
    servings: int,
    summary: Option<string> := None,
    instructions: Option<seq<InstructionSet>> := None,
    ingredients: Option<seq<Ingredient>> := None)

  /** The placeholder image of demo recipe `n`. */
  function DemoImage(n: string): string
  {
    "https://picsum.photos/312/231?random=" + n
  }

  /** The fixed text of the demo summaries; a pair is the text before and after
      the lower-cased query or ingredient text. */
  const StirFrySummary := ("A delicious and quick stir fry using fresh ", ". Perfect for weeknight dinners!")
  const SmoothieSummary := "Healthy smoothie bowl perfect for breakfast. Packed with nutrients and flavor."
  const RoastedSummary := ("Simple roasted ", " with herbs and spices. A classic preparation method.")
  const SaladSummary := ("Fresh and crispy salad featuring ", ". Light and refreshing.")
  const FreshSaladSummary := ("Fresh salad using your ", ". Perfect for using expiring ingredients!")
  const WarmingSoupSummary := "Warming soup perfect for using up ingredients. Comfort food at its best."
  const PowerBowlSummary := ("Nutritious power bowl with ", ". Healthy and satisfying.")

  /** `getDemoRecipes(query)`, which `searchRecipes` returns for every query. */
  function GetDemoRecipes(query: string, lowercase: string -> string): (r: seq<Recipe>)
    ensures |r| == 4
    ensures forall i :: 0 <= i < |r| ==> r[i].id == i + 1 && r[i].summary.Some?
  {
    [ Recipe(1, "Quick " + query + " Stir Fry", DemoImage("1"), 15, 2,
             summary := Some(StirFrySummary.0 + lowercase(query) + StirFrySummary.1)),
      Recipe(2, query + " Smoothie Bowl", DemoImage("2"), 10, 1,
             summary := Some(SmoothieSummary)),
      Recipe(3, "Roasted " + query, DemoImage("3"), 25, 4,
             summary := Some(RoastedSummary.0 + lowercase(query) + RoastedSummary.1)),
      Recipe(4, query + " Salad Supreme", DemoImage("4"), 8, 2,
             summary := Some(SaladSummary.0 + lowercase(query) + SaladSummary.1)) ]
  }

  /** Only titles and summaries depend on the query: ids, images, times and
      servings are the same whatever is searched for, and the second recipe's
      summary is fixed. */
  lemma DemoRecipesShapeFixed(q1: string, q2: string, lowercase: string -> string)
    ensures var a, b := GetDemoRecipes(q1, lowercase), GetDemoRecipes(q2, lowercase);
      && |a| == |b|
      && (forall i :: 0 <= i < |a| ==>
            a[i].id == b[i].id && a[i].image == b[i].image
            && a[i].readyInMinutes == b[i].readyInMinutes && a[i].servings == b[i].servings)
      && a[1].summary == b[1].summary
  {
  }

  /** The query goes verbatim into every title, so different queries give
      different titles. */
  lemma DemoTitlesDetermineQuery(q1: string, q2: string, lowercase: string -> string, i: int)
    requires 0 <= i < 4
    requires GetDemoRecipes(q1, lowercase)[i].title == GetDemoRecipes(q2, lowercase)[i].title
    ensures q1 == q2
  {
    var t1, t2 := GetDemoRecipes(q1, lowercase)[i].title, GetDemoRecipes(q2, lowercase)[i].title;
    if i == 0 {
      assert t1[6..|t1| - 9] == q1;
      assert t2[6..|t2| - 9] == q2;
    } else if i == 1 {
      assert t1[..|t1| - 14] == q1;
      assert t2[..|t2| - 14] == q2;
    } else if i == 2 {
      assert t1[8..] == q1;
      assert t2[8..] == q2;
    } else {
      assert t1[..|t1| - 14] == q1;
      assert t2[..|t2| - 14] == q2;
    }
  }

  /** `ingredients.take(2).joinToString(" & ")` */
  function IngredientText(ingredients: seq<string>): (t: string)
    ensures ingredients == [] ==> t == ""
    ensures |ingredients| == 1 ==> t == ingredients[0]
    ensures |ingredients| >= 2 ==> t == ingredients[0] + " & " + ingredients[1]
  {
    var firstTwo := Take(ingredients, 2);
    assert |ingredients| >= 2 ==> firstTwo == [ingredients[0], ingredients[1]];
    assert |ingredients| >= 2 ==> JoinToString(firstTwo, " & ") == ingredients[0] + " & " + JoinToString([ingredients[1]], " & ");
    JoinToString(firstTwo, " & ")
  }

  /** `getDemoRecipesForIngredients(ingredients)`, which `findRecipesByIngredients`
      returns for every ingredient list. */
  function GetDemoRecipesForIngredients(ingredients: seq<string>, lowercase: string -> string): (r: seq<Recipe>)
    ensures |r| == 3
    ensures forall i :: 0 <= i < |r| ==> r[i].id == i + 10 && r[i].summary.Some?
  {
    var t := IngredientText(ingredients);
    [ Recipe(10, t + " Fresh Salad", DemoImage("10"), 10, 2,
             summary := Some(FreshSaladSummary.0 + lowercase(t) + FreshSaladSummary.1)),
      Recipe(11, t + " Warming Soup", DemoImage("11"), 20, 3,
             summary := Some(WarmingSoupSummary)),
      Recipe(12, t + " Power Bowl", DemoImage("12"), 12, 1,
             summary := Some(PowerBowlSummary.0 + lowercase(t) + PowerBowlSummary.1)) ]
  }

  /** Only the first two ingredients matter: lists that agree on them give the same
      recipes. */
  lemma IngredientRecipesUseFirstTwo(a: seq<string>, b: seq<string>, lowercase: string -> string)
    requires Take(a, 2) == Take(b, 2)
    ensures GetDemoRecipesForIngredients(a, lowercase) == GetDemoRecipesForIngredients(b, lowercase)
  {
    if |a| >= 2 {
      assert a[0] == Take(a, 2)[0] && a[1] == Take(a, 2)[1];
      assert b[0] == Take(b, 2)[0] && b[1] == Take(b, 2)[1];
    } else {
      assert a == Take(a, 2) && b == Take(b, 2);
    }
  }

  /** With no ingredients the titles start with a bare space. */
  lemma NoIngredientsTitles(lowercase: string -> string)
    ensures GetDemoRecipesForIngredients([], lowercase)[0].title == " Fresh Salad"
  {
  }
}
