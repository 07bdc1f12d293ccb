/** The recipe records and the three mock recipes (frontend/src/api/mockData.js). */
module Recipes {
  import opened Text

  /** A recipe id: a number, as every id in the mock data is, or any string (none occurs there). */
  datatype RecipeId = NumId(n: nat) | TextId(s: string)

  /**
   * `String(id)`: a numeric id becomes its decimal numeral, which reads back
   * as the id; a string id is itself.
   */
  function IdString(id: RecipeId): (s: string)
    ensures id.NumId? ==> |s| >= 1 && AllDigits(s) && DigitsValue(s) == id.n
    ensures id.NumId? ==> (s[0] == '0' ==> id.n == 0)
    ensures id.TextId? ==> s == id.s
  {
    match id
    case NumId(n) => DigitsValueOfNatToString(n); NatToString(n)
    case TextId(s) => s
  }

  datatype Recipe = Recipe(
    id: RecipeId,
    author: string,
    title: string,
    description: string,
    prepTime: nat,
    categories: seq<string>,
    ingredients: seq<string>,
    steps: seq<string>,
    images: seq<string>)

  /** `RECIPES`: three recipes with the numeric ids 1, 2 and 3, in that order. */
  function MockRecipes(): (rs: seq<Recipe>)
    ensures |rs| == 3
    ensures rs[0].id == NumId(1) && rs[1].id == NumId(2) && rs[2].id == NumId(3)
  {
    [
      Recipe(NumId(1), "Demo User", "Chicken Alfredo Pasta",
             "Creamy pasta with chicken, parmesan and garlic.", 25,
             ["Pasta", "Dinner"], ["Chicken", "Pasta", "Parmesan", "Garlic", "Cream"],
             ["Cook pasta in salted water.", "Cook chicken with garlic.",
              "Add cream and parmesan, then combine with pasta."],
             ["https://picsum.photos/id/1080/1200/800", "https://picsum.photos/id/292/1200/800",
              "https://picsum.photos/id/1025/1200/800"]),
      Recipe(NumId(2), "Demo User", "Greek Salad",
             "Fresh salad with feta, olives and a simple dressing.", 10,
             ["Salad", "Healthy"], ["Tomato", "Cucumber", "Feta", "Olives", "Olive oil"],
             ["Chop vegetables.", "Add feta and olives.", "Mix dressing and combine."],
             ["https://picsum.photos/id/1060/1200/800", "https://picsum.photos/id/1040/1200/800",
              "https://picsum.photos/id/1039/1200/800"]),
      Recipe(NumId(3), "Demo User", "Pancakes",
             "Fluffy pancakes perfect for breakfast.", 20,
             ["Breakfast", "Sweet"], ["Flour", "Milk", "Eggs", "Baking powder", "Sugar"],
             ["Mix dry ingredients.", "Add milk and eggs, mix until smooth.",
              "Cook on a hot pan until golden."],
             ["https://picsum.photos/id/1084/1200/800", "https://picsum.photos/id/1067/1200/800",
              "https://picsum.photos/id/1011/1200/800"])
    ]
  }
}
