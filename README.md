# Recipe front end: rating and comment stores, star display, search and lookup

This project models, in Dafny, the logic of a small single-page recipe
application whose persistence lives entirely in the browser's `localStorage`.

- **Rating store** (`useRatings`). Every recipe has a map from user id to a
  rating, kept under the storage key `rf_ratings_<recipeId>`. Reading falls
  back to an empty map on a missing key, an empty string, malformed JSON or a
  value that is not an object. `getRatingSummary` keeps the values whose
  `Number()` lies in [1, 5] and returns their count and mean (0 when none
  remain). The hook holds the map as state. `setMyRating` ignores values
  outside [1, 5] and otherwise upserts the current user's entry. An effect
  writes the whole map back after every change. The hook also exposes its own
  `avg`, `count` and `myRating`.
- **Comment store** (`useComments`). Every recipe has a newest-first list of
  comments under `rf_comments_<recipeId>`. `addComment` trims the text,
  refuses fewer than two characters, and otherwise prepends a record whose
  author defaults to "Demo User". An effect persists the list.
- **Star display**. `clamp`, the display value `clamp(Number(value) || 0, 0, 5)`,
  star `i`'s fill `clamp(v - i, 0, 1)`, and the rounded fill percentage.
- **Home search**. A case-insensitive substring filter over
  `title + " " + description`, and the "no recipes match" message.
- **Recipe details**. The first recipe whose `String(id)` equals the route id,
  or the not-found page.

Storage is a `LocalStorage` object holding `map<string, Stored>`, shared by
both hooks. A key that is absent is `getItem` returning `null`. `Blank` is the
empty string (falsy, so the fallback applies). `Malformed` is text that
`JSON.parse` rejects. `Doc(j)` is a parsed JSON value. Each hook is a class
whose constructor is the state initialiser followed by the first run of the
persisting effect. Each state change is one method that also performs the
effect's write. Averages and fills are exact reals.

Modules: `Optional`, `Text` (decimal numerals, ASCII lower case, substring
search, `trim`), `Storage`, `Ratings`, `Comments`, `StarDisplay`, `Recipes`
(the three fixtures of `mockData.js`), `Home`, `RecipeDetails`.

The two rating averages differ. `getRatingSummary` keeps only values whose
`Number()` lies in [1, 5] (`useRatings.js:26`), while the hook's own `avg`
averages every stored value (`useRatings.js:45-49`). The model keeps both as
written: `Ratings.HookAgreesWithSummary` shows they agree when every stored
value is a rating in range, and `Ratings.HookAverageCountsOutOfRange` shows
a stored 9 that only the hook counts.

## Model

| member | source | states |
|---|---|---|
| Ratings.KeyFor | frontend/src/hooks/useRatings.js:3-5 | the key is "rf_ratings_" followed by the recipe id |
| Ratings.KeyForInjective | frontend/src/hooks/useRatings.js:3-5 | distinct recipe ids get distinct rating keys |
| Ratings.IsObject | frontend/src/hooks/useRatings.js:12 | null, booleans, numbers and strings fail `obj && typeof obj === "object"`; objects and arrays pass |
| Ratings.IndexMap | frontend/src/hooks/useRatings.js:11-12 | a parsed array is seen as an object whose keys are the decimal indices: element i sits under "i", and every value is an element |
| Ratings.IndexMapKeys | frontend/src/hooks/useRatings.js:12 | the property names of a stored array are exactly the numerals "0" up to its length minus one |
| Ratings.IndexMapSize | frontend/src/hooks/useRatings.js:12 | a stored array has exactly as many properties as elements |
| Ratings.ReadRatings | frontend/src/hooks/useRatings.js:8-16 | empty map when the key is absent, blank or malformed, or the value is not an object (null included); a stored object gives its properties, a stored array its index map |
| Ratings.WriteRatings | frontend/src/hooks/useRatings.js:18-20 | only the recipe's key changes, and reading that recipe back yields the written map |
| Ratings.ReadAfterWrite | frontend/src/hooks/useRatings.js:8-20 | write then read of the same recipe returns the map; another recipe's read is unaffected |
| Ratings.NumberOf | frontend/src/hooks/useRatings.js:25 | `Number(x)` on a parsed value: a number is itself, an object is NaN |
| Ratings.NumberOfNumeral | frontend/src/hooks/useRatings.js:25 | a decimal numeral string converts to its value |
| Ratings.ValidRatings | frontend/src/hooks/useRatings.js:24-26 | the kept entries are exactly the users whose value converts to a number in [1,5], each with that number |
| Ratings.SumRemove | frontend/src/hooks/useRatings.js:29 | the sum over the values does not depend on the order of `Object.values`: any entry can be taken out first |
| Ratings.SumInRange | frontend/src/hooks/useRatings.js:26-29 | n values in [1,5] sum to between n and 5n |
| Ratings.Summarize | frontend/src/hooks/useRatings.js:24-31 | count is the number of kept entries; avg is 0 when none are kept, otherwise their sum divided by the count, which lies in [1,5] |
| Ratings.GetRatingSummary | frontend/src/hooks/useRatings.js:22-32 | a missing or unreadable key gives {avg 0, count 0}; count never exceeds the number of stored entries |
| Ratings.HookAverage | frontend/src/hooks/useRatings.js:43-49 | 0 for an empty map; for numeric values, avg times the number of values is their sum, with no range filter |
| Ratings.MyRatingOf | frontend/src/hooks/useRatings.js:53 | the user's stored value, or 0 when the user has no entry or it is null |
| Ratings.HookAgreesWithSummary | frontend/src/hooks/useRatings.js:43-51 | when every value is a rating in [1,5], the hook's avg and count equal the summary's |
| Ratings.HookAverageCountsOutOfRange | frontend/src/hooks/useRatings.js:45-49 | a single stored 9 gives hook avg 9 but summary {0, 0} |
| Ratings.RateUpdatesValidRatings | frontend/src/hooks/useRatings.js:59-62 | an in-range upsert sets that user's kept value and leaves every other user's unchanged |
| Ratings.RerateKeepsHookCount | frontend/src/hooks/useRatings.js:51 | upserting an existing user keeps the hook's count; a new user adds one |
| Ratings.RerateKeepsSummaryCount | frontend/src/hooks/useRatings.js:59-62 | re-rating a counted user keeps the summary count; any upsert raises it by at most one |
| Ratings.RateTwiceKeepsLast | frontend/src/hooks/useRatings.js:55-62 | rating 4 then 2 by one user gives {avg 2, count 1} |
| Ratings.TwoUsersAverage | frontend/src/hooks/useRatings.js:22-32 | ratings 3 and 5 by two users give {avg 4, count 2} |
| Ratings.RatingsHook.constructor | frontend/src/hooks/useRatings.js:34-41 | the state is what storage held, the user id defaults to "demo", and the effect writes the state back |
| Ratings.RatingsHook.SetMyRating | frontend/src/hooks/useRatings.js:55-63 | out of [1,5]: state and storage unchanged; else the user's entry becomes the value, others unchanged, storage equals the state, and myRating reads the value |
| Ratings.RatingsHook.ChangeRecipe | frontend/src/hooks/useRatings.js:35-41 | as written: a new recipe id keeps the old state and the effect writes it under the new recipe's key |
| Ratings.RatingsHook.ChangeRecipeReloading | frontend/src/hooks/useRatings.js:35-41 | corrected: the same id changes nothing; a new id reloads the state from that recipe's stored ratings and writes back exactly that key, so no recipe's ratings read differently |
| Ratings.ReloadPreservesReads | frontend/src/hooks/useRatings.js:8-20 | writing back what was just read leaves every recipe's read unchanged |
| Ratings.RecipeChangeScenario | frontend/src/hooks/useRatings.js:35-41 | as written, recipe "2" ends up holding only user "a"'s rating from recipe "1" and user "b"'s rating is lost |
| Ratings.RecipeChangeReloadingScenario | frontend/src/hooks/useRatings.js:35-41 | with reloading, user "b"'s rating for recipe "2" survives |
| Storage.Parsed | frontend/src/hooks/useRatings.js:9-11 | a value is read only when the key holds a parsed document, and it is that document |
| Storage.LocalStorage.SetItem | frontend/src/hooks/useRatings.js:19 | only the given key changes, and it holds the value |
| Comments.KeyFor | frontend/src/hooks/useComments.js:3-5 | the key is "rf_comments_" followed by the recipe id |
| Comments.KeyForInjective | frontend/src/hooks/useComments.js:3-5 | distinct recipe ids get distinct comment keys |
| Comments.KeysDisjoint | frontend/src/hooks/useComments.js:3-5 | no comment key is a rating key |
| Comments.ReadComments | frontend/src/hooks/useComments.js:8-16 | empty list when the key is absent, blank or malformed, or the value is not an array; otherwise the stored array |
| Comments.WriteComments | frontend/src/hooks/useComments.js:18-20 | only the recipe's key changes, and reading back yields the written list |
| Comments.ReadAfterWrite | frontend/src/hooks/useComments.js:8-20 | write then read returns the list; other recipes' comments and all ratings reads are unaffected |
| Comments.ToJson | frontend/src/hooks/useComments.js:33-38 | the record has exactly the fields id, author, text, createdAt, holding the comment's values |
| Comments.AuthorOrDefault | frontend/src/hooks/useComments.js:35 | the given author when non-empty, else "Demo User"; never empty |
| Comments.NewComment | frontend/src/hooks/useComments.js:29-38 | a record exists iff the trimmed text has at least 2 characters; it carries the trimmed text, the defaulted author, and the given id and timestamp |
| Comments.CommentsHook.constructor | frontend/src/hooks/useComments.js:22-27 | the state is what storage held, and the effect writes it back |
| Comments.CommentsHook.AddComment | frontend/src/hooks/useComments.js:29-42 | returns true iff the trimmed text is long enough; on false nothing changes; on true the new record is the head, the tail is the old list, storage equals the state, ratings are untouched |
| Comments.CommentsHook.ChangeRecipe | frontend/src/hooks/useComments.js:23-27 | as written: a new recipe id keeps the old list and the effect writes it under the new recipe's key |
| Comments.CommentsHook.ChangeRecipeReloading | frontend/src/hooks/useComments.js:23-27 | corrected: the same id changes nothing; a new id reloads the list from that recipe's stored comments and writes back exactly that key, so no recipe's comments read differently |
| Comments.AddCommentScenario | frontend/src/hooks/useComments.js:29-42 | " Great " with an empty author is stored as "Great" by "Demo User"; " x" is refused |
| Comments.RecipeChangeScenario | frontend/src/hooks/useComments.js:23-27 | as written, recipe "2"'s stored comment is lost when the hook moves from recipe "1" to "2" |
| Comments.RecipeChangeReloadingScenario | frontend/src/hooks/useComments.js:23-27 | with reloading, recipe "2"'s comment survives |
| Text.Trim | frontend/src/hooks/useComments.js:30 | the result is a middle slice of the input with only white space cut on both sides, and it neither starts nor ends with white space |
| Text.TrimAllWhiteSpace | frontend/src/hooks/useComments.js:30-31 | white space alone trims to "" (so such a comment is refused) |
| Text.TrimNoSpace | frontend/src/hooks/useComments.js:30 | text without white space at either end is unchanged |
| StarDisplay.Clamp | frontend/src/components/StarDisplay.jsx:1-3 | for a <= b the result is in [a,b], equals x inside it and the nearer bound outside; for b < a it is a |
| StarDisplay.DisplayValue | frontend/src/components/StarDisplay.jsx:26 | always in [0,5]; NaN or 0 give 0; values in [0,5] pass unchanged |
| StarDisplay.Fill | frontend/src/components/StarDisplay.jsx:31 | star i's fill is in [0,1]: 0 when v <= i, 1 when v >= i + 1, and v - i in between |
| StarDisplay.Fills | frontend/src/components/StarDisplay.jsx:30-31 | five fills, each in [0,1], never increasing from left to right |
| StarDisplay.FillsSumToValue | frontend/src/components/StarDisplay.jsx:30-31 | for v in [0,5] the five fills sum to v |
| StarDisplay.WholeValueFills | frontend/src/components/StarDisplay.jsx:31 | for a whole v, star i is full when i < v and empty otherwise |
| StarDisplay.DisplayedStarsSumToValue | frontend/src/components/StarDisplay.jsx:26-31 | for any input the fills sum to the displayed value |
| StarDisplay.Percent | frontend/src/components/StarDisplay.jsx:6 | the width percentage is in [0,100]; 0 for fill <= 0 and 100 for fill >= 1 |
| StarDisplay.PercentMonotone | frontend/src/components/StarDisplay.jsx:6 | a larger fill never gives a smaller percentage |
| Home.Matches | frontend/src/pages/Home.jsx:10 | the empty search matches every recipe; a matching search is no longer than the searched text |
| Home.Filter | frontend/src/pages/Home.jsx:9-11 | every kept recipe is an input recipe that matches, and every matching input recipe is kept |
| Home.FilterIsSubsequence | frontend/src/pages/Home.jsx:9-11 | the result keeps the input order (a subsequence) |
| Home.FilterCounts | frontend/src/pages/Home.jsx:9-11 | a matching recipe occurs as often as in the input, a non-matching one never |
| Home.EmptySearchKeepsAll | frontend/src/pages/Home.jsx:7-11 | the initial empty search shows every recipe |
| Home.SearchIgnoresCase | frontend/src/pages/Home.jsx:10 | searches equal up to letter case give the same result |
| Home.NoMatchMessageIffNoMatch | frontend/src/pages/Home.jsx:35-39 | the message shows exactly when no recipe matches |
| Text.Lower | frontend/src/pages/Home.jsx:10 | same length, each letter A-Z lowered, every other character kept |
| Text.IncludesEmpty | frontend/src/pages/Home.jsx:10 | every text includes the empty search |
| Recipes.IdString | frontend/src/pages/RecipeDetails.jsx:6 | `String(id)`: a numeric id gives a decimal numeral without a leading zero (except for 0) that reads back as the id; a string id is itself |
| Recipes.MockRecipes | frontend/src/api/mockData.js:1-59 | three recipes with ids 1, 2 and 3, in that order |
| RecipeDetails.FindIndex | frontend/src/pages/RecipeDetails.jsx:6 | the index of the first recipe whose id string equals the route id, or none when no id matches |
| RecipeDetails.Find | frontend/src/pages/RecipeDetails.jsx:6 | a found recipe is an element of the list with that id; none exactly when no id matches |
| RecipeDetails.PageFor | frontend/src/pages/RecipeDetails.jsx:6-17 | the not-found page exactly when no mock recipe has the route id; otherwise the details of one that has it |
| RecipeDetails.NumericIdMatchesNumeral | frontend/src/pages/RecipeDetails.jsx:6 | numeric id n matches the route "n" and no other route |
| RecipeDetails.FindsFirstMatch | frontend/src/pages/RecipeDetails.jsx:6 | the first matching recipe is the one returned |
| RecipeDetails.MockRoutesFound | frontend/src/api/mockData.js:1-59 | routes "1", "2", "3" resolve to the three mock recipes in order |
| RecipeDetails.MockRoutesOthersNotFound | frontend/src/pages/RecipeDetails.jsx:6-17 | every other route shows the not-found page |
| Text.NatToString | frontend/src/pages/RecipeDetails.jsx:6 | `String(n)` is a non-empty digit string without a leading zero |
| Text.DigitsValueOfNatToString | frontend/src/pages/RecipeDetails.jsx:6 | the decimal string reads back as n, so `String` is injective on ids |

## Left out

- Real `localStorage`, JSON text, `JSON.parse` and `JSON.stringify` are not modelled. Storage holds parsed values or a parse failure, and a write stores the value itself.
- A `getItem` that throws (storage disabled) is not modelled. Its fallback is the same as for malformed JSON.
- React's scheduling of `useState`, `useEffect` and `useMemo` is not modelled. A setter and the effect it triggers form one atomic step. Re-renders with unchanged props are not modelled; a change of `recipeId` is (`ChangeRecipe` in each hook).
- `crypto.randomUUID`, `Date.now` and `new Date().toISOString()` are not modelled. The comment id and timestamp are parameters.
- Floating point is not modelled: averages, fills and percentages are exact reals, and `Math.round(x)` is `floor(x + 0.5)`.
- Ratings.NumberOf: `Number()` is covered for numbers, null, booleans, blank strings and plain decimal numerals. Signs, fractions, exponents, hex, binary and octal literals (`Number("0b101")` is 5), `Infinity`, numerals padded with Unicode spaces that `Text.Trim` does not strip (such as U+3000), and arrays give NaN here; in JavaScript these are numbers.
- Ratings.HookAverage: a non-number value makes the result undefined (`None`). JavaScript's `+` would concatenate strings or coerce the value instead.
- Ratings.RatingsHook.SetMyRating: takes a number. A value whose `Number()` is NaN passes the range check in the source and is stored as NaN. No file in the code calls `useRatings` or `setMyRating`.
- A stored array is read as an object with decimal index keys. When written back it is an object, not an array, and array holes are not modelled.
- Property names that hit the object prototype (`__proto__`, `constructor`) in `ratingsByUser[userId]` are not modelled.
- Text.Lower: ASCII letters only. Unicode case mapping is not modelled.
- Text.Trim: removes ASCII white space, no-break space, the byte-order mark and the line and paragraph separators, but not the other Unicode space separators. `length` counts characters, not UTF-16 code units.
- `String(text || "")` for a text that is not a string is not modelled: the text is a string parameter.
- JSX markup and styling are not modelled. Neither are routing (`App.jsx`), `Navbar.jsx`, `AddRecipe.jsx`, `Profile.jsx`, `RecipeCard.jsx`, `StarRating.jsx` and `StarRatingInput.jsx`: they only render, or emit ratings 1 to 5.
- Text.NatToString: every id is written in plain decimal digits. JavaScript's `String(n)` switches to exponent form from 1e21, and numeric ids above 2^53 lose precision; neither is modelled.
- The JSX rendering of the details page is not modelled: `PageFor` yields the six fields the page reads (title, description, categories, preparation time, ingredients, steps), not their markup.

## Findings

| source | as written | input that shows it | evidently intended | confidence | as-written member | corrected member |
|---|---|---|---|---|---|---|
| frontend/src/hooks/useRatings.js:35-41 | the state is read from storage only on mount; when `recipeId` changes, the effect writes the old recipe's ratings under the new recipe's key | recipe "2" holds user "b"'s rating 5; user "a" mounts the hook for recipe "1", rates 3, and the hook is re-rendered for "2" (Ratings.RecipeChangeScenario) | reload the state for the new recipe, leaving its stored ratings intact | medium; not executed; no file in the code mounts the hook | Ratings.RatingsHook.ChangeRecipe | Ratings.RatingsHook.ChangeRecipeReloading |
| frontend/src/hooks/useComments.js:23-27 | the state is read from storage only on mount; when `recipeId` changes, the effect writes the old recipe's comments over the new recipe's | recipe "2" holds one comment; the hook is mounted for recipe "1" (none) and re-rendered for "2" (Comments.RecipeChangeScenario) | reload the list for the new recipe, leaving its stored comments intact | medium; not executed; no file in the code mounts the hook | Comments.CommentsHook.ChangeRecipe | Comments.CommentsHook.ChangeRecipeReloading |
