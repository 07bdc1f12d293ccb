/**
 * The per-recipe rating store (frontend/src/hooks/useRatings.js): for each
 * recipe, a JSON object from user id to numeric rating, persisted under the
 * key `rf_ratings_<recipeId>`; a summary that keeps only ratings in [1,5];
 * and the hook whose state is the map and whose setter upserts the current
 * user's rating and writes the whole map back.
 */
module Ratings {
  import opened Optional
  import opened Text
  import opened Storage

  /** The user id the hook falls back to when none is given. */
  const DefaultUserId: string := "demo"

  /** The storage key of one recipe's ratings: the fixed prefix, then the id. */
  function KeyFor(recipeId: string): (k: string)
    ensures |k| == |recipeId| + 11
    ensures k[..11] == "rf_ratings_" && k[11..] == recipeId
  {
    "rf_ratings_" + recipeId
  }

  lemma KeyForInjective(a: string, b: string)
    requires KeyFor(a) == KeyFor(b)
    ensures a == b
  {
    assert a == KeyFor(a)[11..];
    assert b == KeyFor(b)[11..];
  }

  /** A parsed value JavaScript treats as an object (`obj && typeof obj === "object"`). */
  predicate IsObject(j: Json)
    ensures j.JNull? || j.JBool? || j.JNum? || j.JStr? ==> !IsObject(j)
    ensures j.JObj? || j.JArr? ==> IsObject(j)
  {
    j.JObj? || j.JArr?
  }

  /** The own properties of a JSON array: its elements under the keys "0", "1", ... */
  function IndexMap(xs: seq<Json>): (r: map<string, Json>)
    ensures forall i :: 0 <= i < |xs| ==> NatToString(i) in r && r[NatToString(i)] == xs[i]
    ensures forall k :: k in r ==> r[k] in xs
  {
    NatToStringInjectiveAll();
    map i | 0 <= i < |xs| :: NatToString(i) := xs[i]
  }

  /** The property names of an array of length n: "0" up to n - 1 in decimal. */
  function IndexKeys(n: nat): set<string> {
    set i | 0 <= i < n :: NatToString(i)
  }

  /** Every property name of an array's index map is an index numeral, and every index has one. */
  lemma IndexMapKeys(xs: seq<Json>)
    ensures IndexMap(xs).Keys == IndexKeys(|xs|)
  {
  }

  lemma {:induction false} IndexKeysSize(n: nat)
    ensures |IndexKeys(n)| == n
  {
    if n > 0 {
      IndexKeysSize(n - 1);
      forall k | k in IndexKeys(n) ensures k in IndexKeys(n - 1) + {NatToString(n - 1)} {
        var i :| 0 <= i < n && k == NatToString(i);
        if i < n - 1 {
          assert k in IndexKeys(n - 1);
        }
      }
      assert IndexKeys(n) == IndexKeys(n - 1) + {NatToString(n - 1)};
      if NatToString(n - 1) in IndexKeys(n - 1) {
        var i :| 0 <= i < n - 1 && NatToString(i) == NatToString(n - 1);
        NatToStringInjective(i, n - 1);
      }
    }
  }

  /** A stored array has one property per element, so the hook counts its elements. */
  lemma IndexMapSize(xs: seq<Json>)
    ensures |IndexMap(xs)| == |xs|
  {
    IndexKeysSize(|xs|);
    IndexMapKeys(xs);
  }

  /** The key/value view of a parsed object (what `Object.values` and spreading see). */
  function Properties(j: Json): map<string, Json>
    requires IsObject(j)
  {
    if j.JObj? then j.fields else IndexMap(j.items)
  }

  /**
   * `readRatings`: the parsed object stored for the recipe, or the empty map
   * when the key is absent, the text is empty or malformed, or the parsed
   * value is null or not an object.
   */
  function ReadRatings(items: map<string, Stored>, recipeId: string): (r: map<string, Json>)
    ensures Parsed(items, KeyFor(recipeId)).None? ==> r == map[]
    ensures Parsed(items, KeyFor(recipeId)).Some? && !IsObject(Parsed(items, KeyFor(recipeId)).value)
            ==> r == map[]
    ensures Parsed(items, KeyFor(recipeId)).Some? && Parsed(items, KeyFor(recipeId)).value.JObj?
            ==> r == Parsed(items, KeyFor(recipeId)).value.fields
    ensures Parsed(items, KeyFor(recipeId)).Some? && Parsed(items, KeyFor(recipeId)).value.JArr?
            ==> r == IndexMap(Parsed(items, KeyFor(recipeId)).value.items)
  {
    match Parsed(items, KeyFor(recipeId))
    case Some(j) => if IsObject(j) then Properties(j) else map[]
    case None => map[]
  }

  /** `writeRatings` as a state change of the shared storage. */
  method WriteRatings(store: LocalStorage, recipeId: string, ratings: map<string, Json>)
    modifies store
    ensures store.items == old(store.items)[KeyFor(recipeId) := Doc(JObj(ratings))]
    ensures ReadRatings(store.items, recipeId) == ratings
  {
    store.SetItem(KeyFor(recipeId), JObj(ratings));
  }

  /** A map written under a recipe's key reads back unchanged, for that recipe only. */
  lemma ReadAfterWrite(items: map<string, Stored>, recipeId: string, other: string, ratings: map<string, Json>)
    ensures ReadRatings(items[KeyFor(recipeId) := Doc(JObj(ratings))], recipeId) == ratings
    ensures other != recipeId ==>
      ReadRatings(items[KeyFor(recipeId) := Doc(JObj(ratings))], other) == ReadRatings(items, other)
  {
    if other != recipeId && KeyFor(other) == KeyFor(recipeId) {
      KeyForInjective(other, recipeId);
    }
  }

  // ---------------------------------------------------------------------------
  // Number coercion and the rating summary
  // ---------------------------------------------------------------------------

  /**
   * `Number(j)` for a parsed JSON value; None stands for NaN. Strings are
   * converted when, once trimmed, they are empty (0) or plain decimal digits.
   */
  function NumberOf(j: Json): (r: Option<real>)
    ensures j.JNum? ==> r == Some(j.n)
    ensures j.JObj? ==> r.None?
  {
    match j
    case JNum(x) => Some(x)
    case JNull => Some(0.0)
    case JBool(b) => Some(if b then 1.0 else 0.0)
    case JStr(s) =>
      var t := Trim(s);
      if t == "" then Some(0.0)
      else if AllDigits(t) then Some(DigitsValue(t) as real)
      else None
    case JArr(_) => None
    case JObj(_) => None
  }

  /** A rating stored as the numeral of an integer coerces back to that integer. */
  lemma NumberOfNumeral(n: nat)
    ensures NumberOf(JStr(NatToString(n))) == Some(n as real)
  {
    var s := NatToString(n);
    assert !IsWhiteSpace(s[0]) && !IsWhiteSpace(s[|s| - 1]);
    TrimNoSpace(s);
    DigitsValueOfNatToString(n);
  }

  /** The range check shared by the summary and the setter. */
  predicate InRange(v: real) {
    1.0 <= v <= 5.0
  }

  /** A stored value that the summary keeps: it coerces to a number in [1,5]. */
  predicate Counted(j: Json) {
    NumberOf(j).Some? && InRange(NumberOf(j).value)
  }

  /** The users whose stored value the summary keeps. */
  function CountedUsers(m: map<string, Json>): set<string> {
    set u | u in m && Counted(m[u])
  }

  /** The ratings the summary keeps, coerced to numbers. */
  function ValidRatings(m: map<string, Json>): (r: map<string, real>)
    ensures r.Keys == CountedUsers(m)
    ensures |r| == |CountedUsers(m)|
    ensures forall u :: u in r ==> InRange(r[u]) && NumberOf(m[u]) == Some(r[u])
  {
    map u | u in m && Counted(m[u]) :: NumberOf(m[u]).value
  }

  /** The sum of the values of a map, in no particular order. */
  ghost function Sum(m: map<string, real>): real
    decreases |m|
  {
    if m == map[] then 0.0
    else
      var u :| u in m;
      m[u] + Sum(m - {u})
  }

  /** Sum does not depend on the order: any entry can be taken out first. */
  lemma {:induction false} SumRemove(m: map<string, real>, x: string)
    requires x in m
    ensures Sum(m) == m[x] + Sum(m - {x})
    decreases |m|
  {
    var u :| u in m && Sum(m) == m[u] + Sum(m - {u});
    if u != x {
      assert m - {u} - {x} == m - {x} - {u};
      SumRemove(m - {u}, x);
      SumRemove(m - {x}, u);
    }
  }

  /** n ratings in [1,5] sum to between n and 5n. */
  lemma {:induction false} SumInRange(m: map<string, real>)
    requires forall u :: u in m ==> InRange(m[u])
    ensures |m| as real <= Sum(m) <= 5.0 * |m| as real
    decreases |m|
  {
    if m != map[] {
      var u :| u in m && Sum(m) == m[u] + Sum(m - {u});
      assert |(m - {u}).Keys| == |m.Keys - {u}| == |m| - 1;
      SumInRange(m - {u});
    }
  }

  /** The result of `getRatingSummary`. */
  datatype Summary = Summary(avg: real, count: nat)

  /**
   * Average and count over the ratings in [1,5] only; out-of-range and
   * non-numeric values are skipped silently, and the average of nothing is 0.
   */
  ghost function Summarize(m: map<string, Json>): (s: Summary)
    ensures s.count == |CountedUsers(m)|
    ensures s.count == 0 ==> s.avg == 0.0
    ensures s.count > 0 ==> s.avg == Sum(ValidRatings(m)) / s.count as real
    ensures s.count > 0 ==> 1.0 <= s.avg <= 5.0
  {
    SummaryOf(ValidRatings(m))
  }

  /** Count and mean of ratings already known to lie in [1,5]. */
  ghost function SummaryOf(kept: map<string, real>): (s: Summary)
    requires forall u :: u in kept ==> InRange(kept[u])
    ensures s.count == |kept|
    ensures s.count == 0 ==> s.avg == 0.0
    ensures s.count > 0 ==> s.avg == Sum(kept) / s.count as real
    ensures s.count > 0 ==> 1.0 <= s.avg <= 5.0
  {
    if |kept| == 0 then Summary(0.0, 0)
    else
      SumInRange(kept);
      Summary(Mean(Sum(kept), |kept|), |kept|)
  }

  /** The mean of n > 0 values in [1,5] with the given total. */
  function Mean(total: real, n: nat): (a: real)
    requires n > 0 && n as real <= total <= 5.0 * n as real
    ensures a * n as real == total
    ensures 1.0 <= a <= 5.0
  {
    MeanInRange(total, n);
    total / n as real
  }

  /** A total between n and 5n, divided by n > 0, lies in [1,5]. */
  lemma MeanInRange(total: real, n: nat)
    requires n > 0 && n as real <= total <= 5.0 * n as real
    ensures (total / n as real) * n as real == total
    ensures 1.0 <= total / n as real <= 5.0
  {
    var d := n as real;
    var a := total / d;
    assert a * d == total;
    assert (a - 1.0) * d == total - d;
    NonNegativeFactor(a - 1.0, d);
    assert (5.0 - a) * d == 5.0 * d - total;
    NonNegativeFactor(5.0 - a, d);
  }

  lemma NonNegativeFactor(x: real, d: real)
    requires d > 0.0 && x * d >= 0.0
    ensures x >= 0.0
  {
  }

  /** `getRatingSummary`: the summary of what is stored for the recipe. */
  ghost function GetRatingSummary(items: map<string, Stored>, recipeId: string): (s: Summary)
    ensures Parsed(items, KeyFor(recipeId)).None? ==> s == Summary(0.0, 0)
    ensures s.count <= |ReadRatings(items, recipeId)|
  {
    var m := ReadRatings(items, recipeId);
    var kept := ValidRatings(m).Keys;
    assert kept + (m.Keys - kept) == m.Keys;
    assert |m.Keys| == |kept| + |m.Keys - kept|;
    Summarize(m)
  }

  // ---------------------------------------------------------------------------
  // The hook's derived values
  // ---------------------------------------------------------------------------

  /** Every stored value is a number in [1,5]: what the setter alone ever stores. */
  predicate AllInRange(m: map<string, Json>) {
    forall u :: u in m ==> m[u].JNum? && InRange(m[u].n)
  }

  predicate AllNumbers(m: map<string, Json>) {
    forall u :: u in m ==> m[u].JNum?
  }

  function Numbers(m: map<string, Json>): map<string, real> {
    map u | u in m && m[u].JNum? :: m[u].n
  }

  /**
   * The hook's `avg`: the mean of ALL stored values, with no range filter; 0
   * for no values. None when some value is not a number (JavaScript's `+`
   * would then concatenate strings; that arithmetic is not modelled).
   */
  ghost function HookAverage(m: map<string, Json>): (r: Option<real>)
    ensures |m| == 0 ==> r == Some(0.0)
    ensures |m| > 0 && AllNumbers(m) ==> r.Some? && r.value * |m| as real == Sum(Numbers(m))
    ensures |m| > 0 && !AllNumbers(m) ==> r.None?
  {
    if |m| == 0 then Some(0.0)
    else if AllNumbers(m) then Some(Sum(Numbers(m)) / |m| as real)
    else None
  }

  /** `myRating`: the user's stored value, or 0 when absent or null (`??`). */
  function MyRatingOf(m: map<string, Json>, userId: string): (r: Json)
    ensures userId in m && m[userId] != JNull ==> r == m[userId]
    ensures userId !in m || m[userId] == JNull ==> r == JNum(0.0)
  {
    if userId in m && m[userId] != JNull then m[userId] else JNum(0.0)
  }

  /** While every stored value is a valid rating, the hook and the summary agree. */
  lemma HookAgreesWithSummary(m: map<string, Json>)
    requires AllInRange(m)
    ensures HookAverage(m) == Some(Summarize(m).avg)
    ensures |m| == Summarize(m).count
  {
    assert Numbers(m) == ValidRatings(m);
    assert CountedUsers(m) == m.Keys;
  }

  /** With an out-of-range value on file the two disagree: the hook averages it in. */
  lemma HookAverageCountsOutOfRange()
    ensures HookAverage(map["demo" := JNum(9.0)]) == Some(9.0)
    ensures Summarize(map["demo" := JNum(9.0)]) == Summary(0.0, 0)
  {
    var m := map["demo" := JNum(9.0)];
    assert Numbers(m) == map["demo" := 9.0];
    SumRemove(map["demo" := 9.0], "demo");
    assert map["demo" := 9.0] - {"demo"} == map[];
    assert ValidRatings(m) == map[];
  }

  // ---------------------------------------------------------------------------
  // What one accepted rating does
  // ---------------------------------------------------------------------------

  /** Upserting a valid rating changes the kept ratings at that user alone. */
  lemma RateUpdatesValidRatings(m: map<string, Json>, u: string, v: real)
    requires InRange(v)
    ensures ValidRatings(m[u := JNum(v)]) == ValidRatings(m)[u := v]
  {
    assert ValidRatings(m[u := JNum(v)]).Keys == ValidRatings(m)[u := v].Keys;
  }

  /**
   * Rating again never adds an entry: the hook's count is unchanged when the
   * user already had one, and grows by one otherwise.
   */
  lemma RerateKeepsHookCount(m: map<string, Json>, u: string, x: Json)
    ensures |m[u := x]| == if u in m then |m| else |m| + 1
  {
    if u in m {
      assert m[u := x].Keys == m.Keys;
    } else {
      assert m[u := x].Keys == m.Keys + {u};
    }
  }

  /**
   * The summary's count after an accepted rating: unchanged when the user's
   * previous entry was a kept rating, and never more than one higher.
   */
  lemma RerateKeepsSummaryCount(m: map<string, Json>, u: string, v: real)
    requires InRange(v)
    ensures u in m && Counted(m[u]) ==> Summarize(m[u := JNum(v)]).count == Summarize(m).count
    ensures Summarize(m[u := JNum(v)]).count <= Summarize(m).count + 1
  {
    RateUpdatesValidRatings(m, u, v);
    var before := ValidRatings(m);
    assert Summarize(m).count == |before.Keys|;
    assert Summarize(m[u := JNum(v)]).count == |before[u := v].Keys|;
    if u in before {
      assert before[u := v].Keys == before.Keys;
    } else {
      assert before[u := v].Keys == before.Keys + {u};
    }
  }

  /** A user rating 4 and then 2 leaves one rating, of 2. */
  lemma RateTwiceKeepsLast(u: string)
    ensures Summarize(map[][u := JNum(4.0)][u := JNum(2.0)]) == Summary(2.0, 1)
  {
    var m := map[][u := JNum(4.0)][u := JNum(2.0)];
    assert m == map[u := JNum(2.0)];
    assert ValidRatings(m) == map[u := 2.0];
    SumRemove(map[u := 2.0], u);
    assert map[u := 2.0] - {u} == map[];
    assert CountedUsers(m) == {u};
  }

  /** The sum of two distinct users' ratings. */
  lemma SumOfTwo(a: string, b: string, x: real, y: real)
    requires a != b
    ensures Sum(map[a := x, b := y]) == x + y
  {
    var kept := map[a := x, b := y];
    SumRemove(kept, a);
    assert kept - {a} == map[b := y];
    SumRemove(map[b := y], b);
    assert map[b := y] - {b} == map[];
  }

  /** Two users rating 3 and 5 give an average of 4 over two ratings. */
  lemma TwoUsersAverage(a: string, b: string)
    requires a != b
    ensures Summarize(map[a := JNum(3.0), b := JNum(5.0)]) == Summary(4.0, 2)
  {
    var m := map[a := JNum(3.0), b := JNum(5.0)];
    var kept := map[a := 3.0, b := 5.0];
    assert ValidRatings(m).Keys == kept.Keys;
    assert ValidRatings(m) == kept;
    SumOfTwo(a, b, 3.0, 5.0);
    assert CountedUsers(m) == {a, b};
    assert |kept| == 2;
  }

  // ---------------------------------------------------------------------------
  // The hook
  // ---------------------------------------------------------------------------

  /**
   * One mounted `useRatings(recipeId, userId)`: its state `ratingsByUser`,
   * and the storage its effect writes to after every change.
   */
  class RatingsHook {
    const store: LocalStorage
    const userId: string
    var recipeId: string
    var ratingsByUser: map<string, Json>

    /** The effect has run: storage holds exactly the in-memory map. */
    ghost predicate Valid()
      reads this, store
    {
      KeyFor(recipeId) in store.items && store.items[KeyFor(recipeId)] == Doc(JObj(ratingsByUser))
    }

    /** Mounting: the state initialiser reads storage, then the effect writes the state back. */
    constructor (store: LocalStorage, recipeId: string, userId: Option<string>)
      modifies store
      ensures this.store == store && this.recipeId == recipeId
      ensures this.userId == if userId.Some? then userId.value else DefaultUserId
      ensures ratingsByUser == ReadRatings(old(store.items), recipeId)
      ensures store.items == old(store.items)[KeyFor(recipeId) := Doc(JObj(ratingsByUser))]
      ensures Valid()
    {
      this.store := store;
      this.recipeId := recipeId;
      this.userId := if userId.Some? then userId.value else DefaultUserId;
      this.ratingsByUser := ReadRatings(store.items, recipeId);
      new;
      WriteRatings(store, recipeId, ratingsByUser);
    }

    /**
     * `setMyRating(v)`: a value outside [1,5] is ignored and nothing is
     * written; otherwise the user's entry is set to v, every other entry is
     * kept, and the effect persists the whole map.
     */
    method SetMyRating(v: real)
      modifies this, store
      ensures recipeId == old(recipeId)
      ensures !InRange(v) ==> ratingsByUser == old(ratingsByUser) && store.items == old(store.items)
      ensures InRange(v) ==> ratingsByUser == old(ratingsByUser)[userId := JNum(v)]
      ensures InRange(v) ==>
        store.items == old(store.items)[KeyFor(recipeId) := Doc(JObj(ratingsByUser))]
      ensures InRange(v) ==> Valid() && MyRatingOf(ratingsByUser, userId) == JNum(v)
      ensures old(Valid()) ==> Valid()
      ensures old(AllInRange(ratingsByUser)) ==> AllInRange(ratingsByUser)
    {
      if v < 1.0 || v > 5.0 {
        return;
      }
      ratingsByUser := ratingsByUser[userId := JNum(v)];
      WriteRatings(store, recipeId, ratingsByUser);
    }

    /**
     * A re-render with a different `recipeId`, as the hook is written: the
     * state is NOT re-read (the initialiser runs only once), and the effect,
     * whose dependencies changed, writes the old recipe's map under the new
     * recipe's key.
     */
    method ChangeRecipe(newRecipeId: string)
      modifies this, store
      ensures recipeId == newRecipeId && ratingsByUser == old(ratingsByUser)
      ensures newRecipeId == old(recipeId) ==> store.items == old(store.items)
      ensures newRecipeId != old(recipeId) ==>
        store.items == old(store.items)[KeyFor(newRecipeId) := Doc(JObj(old(ratingsByUser)))]
      ensures old(Valid()) ==> Valid()
    {
      if newRecipeId != recipeId {
        recipeId := newRecipeId;
        WriteRatings(store, recipeId, ratingsByUser);
      }
    }

    /**
     * A re-render with a different `recipeId` that reloads the state first
     * (as remounting the hook per recipe would): what any recipe's ratings
     * read as is unchanged, and the state is the new recipe's ratings.
     */
    method ChangeRecipeReloading(newRecipeId: string)
      modifies this, store
      ensures recipeId == newRecipeId
      ensures newRecipeId == old(recipeId) ==> ratingsByUser == old(ratingsByUser) && store.items == old(store.items)
      ensures newRecipeId != old(recipeId) ==> ratingsByUser == ReadRatings(old(store.items), newRecipeId)
      ensures newRecipeId != old(recipeId) ==>
        store.items == old(store.items)[KeyFor(newRecipeId) := Doc(JObj(ratingsByUser))]
      ensures forall r :: ReadRatings(store.items, r) == ReadRatings(old(store.items), r)
      ensures old(Valid()) ==> Valid()
    {
      if newRecipeId != recipeId {
        ghost var before := store.items;
        recipeId := newRecipeId;
        ratingsByUser := ReadRatings(store.items, recipeId);
        WriteRatings(store, recipeId, ratingsByUser);
        forall r ensures ReadRatings(store.items, r) == ReadRatings(before, r) {
          ReloadPreservesReads(before, newRecipeId, r);
        }
      }
    }
  }

  /** Writing back what a recipe's ratings read as changes no recipe's reading. */
  lemma ReloadPreservesReads(items: map<string, Stored>, recipeId: string, other: string)
    ensures var after := items[KeyFor(recipeId) := Doc(JObj(ReadRatings(items, recipeId)))];
            ReadRatings(after, other) == ReadRatings(items, other)
  {
    ReadAfterWrite(items, recipeId, other, ReadRatings(items, recipeId));
  }

  /** Recipe "2"'s stored ratings in the scenarios below: user "b" rated 5. */
  function StoredForRecipe2(): map<string, Stored> {
    map[KeyFor("2") := Doc(JObj(map["b" := JNum(5.0)]))]
  }

  /**
   * User "a" mounts the hook for recipe "1" (no ratings), rates 3, and the
   * hook is re-rendered for recipe "2". As written, recipe "2" then holds
   * only "a"'s rating from recipe "1": the rating of "b" is lost.
   */
  method RecipeChangeScenario() returns (asWritten: map<string, Json>)
    ensures asWritten == map["a" := JNum(3.0)] && "b" !in asWritten
  {
    assert KeyFor("1")[11] != KeyFor("2")[11];
    assert ReadRatings(StoredForRecipe2(), "1") == map[];
    var store := new LocalStorage(StoredForRecipe2());
    var hook := new RatingsHook(store, "1", Some("a"));
    hook.SetMyRating(3.0);
    assert hook.ratingsByUser == map["a" := JNum(3.0)];
    ghost var before := store.items;
    hook.ChangeRecipe("2");
    ReadAfterWrite(before, "2", "2", map["a" := JNum(3.0)]);
    asWritten := ReadRatings(store.items, "2");
  }

  /** The same steps with the reloading hook: the rating of "b" is kept. */
  method RecipeChangeReloadingScenario() returns (reloading: map<string, Json>)
    ensures reloading == map["b" := JNum(5.0)]
  {
    assert KeyFor("1")[11] != KeyFor("2")[11];
    var store := new LocalStorage(StoredForRecipe2());
    var hook := new RatingsHook(store, "1", Some("a"));
    ReadAfterWrite(StoredForRecipe2(), "1", "2", hook.ratingsByUser);
    ghost var mounted := store.items;
    hook.SetMyRating(3.0);
    ReadAfterWrite(mounted, "1", "2", hook.ratingsByUser);
    assert ReadRatings(store.items, "2") == map["b" := JNum(5.0)];
    hook.ChangeRecipeReloading("2");
    reloading := ReadRatings(store.items, "2");
  }
}
