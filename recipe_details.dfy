/**
 * The recipe detail page (frontend/src/pages/RecipeDetails.jsx): the first
 * recipe whose id, as a string, equals the route's id; otherwise the
 * "Recipe not found" page.
 */
module RecipeDetails {
  import opened Optional
  import opened Text
  import opened Recipes

  /** The index of the first recipe whose `String(id)` equals `routeId`. */
  function FindIndex(recipes: seq<Recipe>, routeId: string): (r: Option<nat>)
    ensures r.Some? ==> r.value < |recipes| && IdString(recipes[r.value].id) == routeId
    ensures r.Some? ==> forall j :: 0 <= j < r.value ==> IdString(recipes[j].id) != routeId
    ensures r.None? ==> forall j :: 0 <= j < |recipes| ==> IdString(recipes[j].id) != routeId
    decreases |recipes|
  {
    if recipes == [] then None
    else if IdString(recipes[0].id) == routeId then Some(0)
    else
      match FindIndex(recipes[1..], routeId)
      case None => None
      case Some(k) => Some(k + 1)
  }

  /** `RECIPES.find((r) => String(r.id) === String(id))`. */
  function Find(recipes: seq<Recipe>, routeId: string): (r: Option<Recipe>)
    ensures r.Some? ==> r.value in recipes && IdString(r.value.id) == routeId
    ensures r.None? <==> forall x :: x in recipes ==> IdString(x.id) != routeId
    ensures r.Some? ==> exists i :: 0 <= i < |recipes| && recipes[i] == r.value
                          && forall j :: 0 <= j < i ==> IdString(recipes[j].id) != routeId
  {
    match FindIndex(recipes, routeId)
    case None => None
    case Some(i) => Some(recipes[i])
  }

  /** What the page renders. Not-found carries no recipe data. */
  datatype Page =
    | NotFound
    | Details(title: string, description: string, categories: seq<string>, prepTime: nat,
              ingredients: seq<string>, steps: seq<string>)

  /** The page for a route id, over the mock recipes. */
  function PageFor(routeId: string): (p: Page)
    ensures p.NotFound? <==> forall x :: x in MockRecipes() ==> IdString(x.id) != routeId
    ensures p.Details? ==> exists x :: x in MockRecipes() && IdString(x.id) == routeId
                            && p == Details(x.title, x.description, x.categories, x.prepTime,
                                            x.ingredients, x.steps)
  {
    match Find(MockRecipes(), routeId)
    case None => NotFound
    case Some(r) => Details(r.title, r.description, r.categories, r.prepTime, r.ingredients, r.steps)
  }

  /** A numeric id is matched through its decimal string: id 1 is found by route "1". */
  lemma NumericIdMatchesNumeral(r: Recipe, n: nat)
    requires r.id == NumId(n)
    ensures Find([r], NatToString(n)) == Some(r)
    ensures forall s :: s != NatToString(n) ==> Find([r], s) == None
  {
  }

  /** The recipe at index i is found when it is the first whose id matches. */
  lemma {:induction false} FindsFirstMatch(recipes: seq<Recipe>, routeId: string, i: nat)
    requires i < |recipes| && IdString(recipes[i].id) == routeId
    requires forall j :: 0 <= j < i ==> IdString(recipes[j].id) != routeId
    ensures Find(recipes, routeId) == Some(recipes[i])
    decreases i
  {
    if i > 0 {
      FindsFirstMatch(recipes[1..], routeId, i - 1);
    }
  }

  /** The route strings of the three mock ids. */
  lemma MockIdStrings()
    ensures IdString(MockRecipes()[0].id) == "1"
    ensures IdString(MockRecipes()[1].id) == "2"
    ensures IdString(MockRecipes()[2].id) == "3"
  {
    assert NatToString(1) == "1" && NatToString(2) == "2" && NatToString(3) == "3";
  }

  /** Routes "1", "2" and "3" open the three mock recipes. */
  lemma MockRoutesFound()
    ensures Find(MockRecipes(), "1") == Some(MockRecipes()[0])
    ensures Find(MockRecipes(), "2") == Some(MockRecipes()[1])
    ensures Find(MockRecipes(), "3") == Some(MockRecipes()[2])
  {
    MockIdStrings();
    FindsFirstMatch(MockRecipes(), "1", 0);
    FindsFirstMatch(MockRecipes(), "2", 1);
    FindsFirstMatch(MockRecipes(), "3", 2);
  }

  /** Every other route shows the not-found page. */
  lemma MockRoutesOthersNotFound(routeId: string)
    requires routeId != "1" && routeId != "2" && routeId != "3"
    ensures PageFor(routeId) == NotFound
  {
    MockIdStrings();
    var rs := MockRecipes();
    forall x | x in rs ensures IdString(x.id) != routeId {
      var k :| 0 <= k < |rs| && rs[k] == x;
    }
  }
}
