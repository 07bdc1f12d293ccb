/**
 * The home page search (frontend/src/pages/Home.jsx): the recipes whose
 * title and description, joined by a space, contain the search string,
 * ignoring letter case, in their original order.
 */
module Home {
  import opened Text
  import opened Recipes

  /** The text searched: `r.title + " " + r.description`. */
  function SearchText(r: Recipe): string {
    r.title + " " + r.description
  }

  /** The filter predicate, compared in lower case on both sides. */
  predicate Matches(r: Recipe, search: string)
    ensures search == "" ==> Matches(r, search)
    ensures Matches(r, search) ==> |search| <= |SearchText(r)|
  {
    IncludesEmpty(Lower(SearchText(r)));
    Includes(Lower(SearchText(r)), Lower(search))
  }

  /** `recipes.filter(...)`: exactly the matching recipes. */
  function Filter(recipes: seq<Recipe>, search: string): (r: seq<Recipe>)
    ensures |r| <= |recipes|
    ensures forall x :: x in r ==> x in recipes && Matches(x, search)
    ensures forall x :: x in recipes && Matches(x, search) ==> x in r
  {
    if recipes == [] then []
    else (if Matches(recipes[0], search) then [recipes[0]] else []) + Filter(recipes[1..], search)
  }

  /** `a` is `b` with some elements left out, the rest in the same order. */
  predicate IsSubsequence(a: seq<Recipe>, b: seq<Recipe>)
    decreases |b|
  {
    if a == [] then true
    else if b == [] then false
    else if a[0] == b[0] then IsSubsequence(a[1..], b[1..])
    else IsSubsequence(a, b[1..])
  }

  /** The filter keeps the input order. */
  lemma {:induction false} FilterIsSubsequence(recipes: seq<Recipe>, search: string)
    ensures IsSubsequence(Filter(recipes, search), recipes)
    decreases |recipes|
  {
    if recipes != [] {
      var rest := Filter(recipes[1..], search);
      FilterIsSubsequence(recipes[1..], search);
      if Matches(recipes[0], search) {
        assert Filter(recipes, search) == [recipes[0]] + rest;
        assert ([recipes[0]] + rest)[1..] == rest;
      } else {
        assert Filter(recipes, search) == rest;
        SubsequenceSkip(rest, recipes);
      }
    }
  }

  /** A subsequence of the tail is a subsequence of the whole. */
  lemma {:induction false} SubsequenceSkip(a: seq<Recipe>, b: seq<Recipe>)
    requires b != [] && IsSubsequence(a, b[1..])
    ensures IsSubsequence(a, b)
    decreases |b|, 0
  {
    if a != [] && a[0] == b[0] {
      // a[1..] is a subsequence of b[1..] because a is
      SubsequenceTail(a, b[1..]);
    }
  }

  /** Dropping the head of a subsequence leaves a subsequence. */
  lemma {:induction false} SubsequenceTail(a: seq<Recipe>, b: seq<Recipe>)
    requires a != [] && IsSubsequence(a, b)
    ensures IsSubsequence(a[1..], b)
    decreases |b|, 1
  {
    if a[0] == b[0] {
      if a[1..] != [] {
        SubsequenceSkip(a[1..], b);
      }
    } else {
      SubsequenceTail(a, b[1..]);
      if a[1..] != [] {
        SubsequenceSkip(a[1..], b);
      }
    }
  }

  /** Each matching recipe occurs in the result as often as in the input, others never. */
  lemma {:induction false} FilterCounts(recipes: seq<Recipe>, search: string, x: Recipe)
    ensures multiset(Filter(recipes, search))[x] == if Matches(x, search) then multiset(recipes)[x] else 0
    decreases |recipes|
  {
    if recipes != [] {
      FilterCounts(recipes[1..], search, x);
      assert recipes == [recipes[0]] + recipes[1..];
    }
  }

  /** An empty search keeps every recipe. */
  lemma {:induction false} EmptySearchKeepsAll(recipes: seq<Recipe>)
    ensures Filter(recipes, "") == recipes
    decreases |recipes|
  {
    if recipes != [] {
      IncludesEmpty(Lower(SearchText(recipes[0])));
      assert Lower("") == "";
      EmptySearchKeepsAll(recipes[1..]);
    }
  }

  /** Searches that differ only in letter case give the same result. */
  lemma {:induction false} SearchIgnoresCase(recipes: seq<Recipe>, a: string, b: string)
    requires Lower(a) == Lower(b)
    ensures Filter(recipes, a) == Filter(recipes, b)
    decreases |recipes|
  {
    if recipes != [] {
      SearchIgnoresCase(recipes[1..], a, b);
    }
  }

  /** The "No recipes match your search." message is shown. */
  predicate ShowsNoMatchMessage(recipes: seq<Recipe>, search: string) {
    |Filter(recipes, search)| == 0
  }

  /** The message appears exactly when no recipe matches. */
  lemma NoMatchMessageIffNoMatch(recipes: seq<Recipe>, search: string)
    ensures ShowsNoMatchMessage(recipes, search) <==> forall x :: x in recipes ==> !Matches(x, search)
  {
    var f := Filter(recipes, search);
    if f != [] {
      assert f[0] in f;
    }
  }
}
