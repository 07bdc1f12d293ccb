/**
 * The per-recipe comment store (frontend/src/hooks/useComments.js): for each
 * recipe, a newest-first JSON array of comments persisted under the key
 * `rf_comments_<recipeId>`, and the hook whose `addComment` validates the
 * text, prepends a new record and writes the whole list back.
 */
module Comments {
  import opened Optional
  import opened Text
  import opened Storage
  import Ratings

  /** The author recorded when none is given. */
  const DefaultAuthor: string := "Demo User"

  /** The fewest characters a trimmed comment may have. */
  const MinLength: nat := 2

  /** The storage key of one recipe's comments: the fixed prefix, then the id. */
  function KeyFor(recipeId: string): (k: string)
    ensures |k| == |recipeId| + 12
    ensures k[..12] == "rf_comments_" && k[12..] == recipeId
  {
    "rf_comments_" + recipeId
  }

  lemma KeyForInjective(a: string, b: string)
    requires KeyFor(a) == KeyFor(b)
    ensures a == b
  {
    assert a == KeyFor(a)[12..];
    assert b == KeyFor(b)[12..];
  }

  /** Comment keys and rating keys never coincide, whatever the recipe ids. */
  lemma KeysDisjoint(a: string, b: string)
    ensures KeyFor(a) != Ratings.KeyFor(b)
  {
    assert KeyFor(a)[3] == 'c' && Ratings.KeyFor(b)[3] == 'r';
  }

  /**
   * `readComments`: the parsed array stored for the recipe, or the empty
   * list when the key is absent, the text is empty or malformed, or the
   * parsed value is not an array.
   */
  function ReadComments(items: map<string, Stored>, recipeId: string): (r: seq<Json>)
    ensures Parsed(items, KeyFor(recipeId)).None? ==> r == []
    ensures Parsed(items, KeyFor(recipeId)).Some? && !Parsed(items, KeyFor(recipeId)).value.JArr?
            ==> r == []
    ensures Parsed(items, KeyFor(recipeId)).Some? && Parsed(items, KeyFor(recipeId)).value.JArr?
            ==> r == Parsed(items, KeyFor(recipeId)).value.items
  {
    match Parsed(items, KeyFor(recipeId))
    case Some(JArr(xs)) => xs
    case _ => []
  }

  /** `writeComments` as a state change of the shared storage. */
  method WriteComments(store: LocalStorage, recipeId: string, comments: seq<Json>)
    modifies store
    ensures store.items == old(store.items)[KeyFor(recipeId) := Doc(JArr(comments))]
    ensures ReadComments(store.items, recipeId) == comments
  {
    store.SetItem(KeyFor(recipeId), JArr(comments));
  }

  /**
   * A list written under a recipe's key reads back unchanged; no other
   * recipe's comments and no recipe's ratings read differently.
   */
  lemma ReadAfterWrite(items: map<string, Stored>, recipeId: string, other: string, comments: seq<Json>)
    ensures ReadComments(items[KeyFor(recipeId) := Doc(JArr(comments))], recipeId) == comments
    ensures other != recipeId ==>
      ReadComments(items[KeyFor(recipeId) := Doc(JArr(comments))], other) == ReadComments(items, other)
    ensures Ratings.ReadRatings(items[KeyFor(recipeId) := Doc(JArr(comments))], other)
            == Ratings.ReadRatings(items, other)
  {
    if other != recipeId && KeyFor(other) == KeyFor(recipeId) {
      KeyForInjective(other, recipeId);
    }
    KeysDisjoint(recipeId, other);
  }

  /** One comment record: `{ id, author, text, createdAt }`. */
  datatype Comment = Comment(id: string, author: string, text: string, createdAt: string)

  /** The JSON object a comment is stored as. */
  function ToJson(c: Comment): (j: Json)
    ensures j.JObj? && j.fields.Keys == {"id", "author", "text", "createdAt"}
    ensures j.fields["text"] == JStr(c.text) && j.fields["author"] == JStr(c.author)
    ensures j.fields["id"] == JStr(c.id) && j.fields["createdAt"] == JStr(c.createdAt)
  {
    JObj(map["id" := JStr(c.id), "author" := JStr(c.author), "text" := JStr(c.text),
             "createdAt" := JStr(c.createdAt)])
  }

  /** `author || "Demo User"`: a missing or empty author becomes the default. */
  function AuthorOrDefault(author: Option<string>): (a: string)
    ensures a != ""
    ensures author.Some? && author.value != "" ==> a == author.value
    ensures author.None? || author.value == "" ==> a == DefaultAuthor
  {
    if author.Some? && author.value != "" then author.value else DefaultAuthor
  }

  /**
   * The record `addComment` builds, or None when the trimmed text is shorter
   * than two characters. The identifier and timestamp are supplied by the
   * caller (they come from the platform's UUID generator and clock).
   */
  function NewComment(author: Option<string>, text: string, id: string, createdAt: string)
    : (r: Option<Comment>)
    ensures r.Some? <==> |Trim(text)| >= MinLength
    ensures r.Some? ==> r.value.id == id && r.value.createdAt == createdAt
    ensures r.Some? ==> r.value.author == AuthorOrDefault(author)
    ensures r.Some? ==> r.value.text == Trim(text) && |r.value.text| >= MinLength
  {
    var clean := Trim(text);
    if |clean| < MinLength then None
    else Some(Comment(id, AuthorOrDefault(author), clean, createdAt))
  }

  /**
   * One mounted `useComments(recipeId)`: its state `comments` (newest first)
   * and the storage its effect writes to after every change.
   */
  class CommentsHook {
    const store: LocalStorage
    var recipeId: string
    var comments: seq<Json>

    /** The effect has run: storage holds exactly the in-memory list. */
    ghost predicate Valid()
      reads this, store
    {
      KeyFor(recipeId) in store.items && store.items[KeyFor(recipeId)] == Doc(JArr(comments))
    }

    /** Mounting: the state initialiser reads storage, then the effect writes the state back. */
    constructor (store: LocalStorage, recipeId: string)
      modifies store
      ensures this.store == store && this.recipeId == recipeId
      ensures comments == ReadComments(old(store.items), recipeId)
      ensures store.items == old(store.items)[KeyFor(recipeId) := Doc(JArr(comments))]
      ensures Valid()
    {
      this.store := store;
      this.recipeId := recipeId;
      this.comments := ReadComments(store.items, recipeId);
      new;
      WriteComments(store, recipeId, comments);
    }

    /**
     * `addComment({ author, text })`: false, and nothing changes, when the
     * trimmed text is too short; otherwise true, the new record is put in
     * front of the existing ones, which keep their order, and the effect
     * persists the whole list. Ratings are never touched.
     */
    method AddComment(author: Option<string>, text: string, id: string, createdAt: string)
      returns (ok: bool)
      modifies this, store
      ensures recipeId == old(recipeId)
      ensures ok <==> |Trim(text)| >= MinLength
      ensures !ok ==> comments == old(comments) && store.items == old(store.items)
      ensures ok ==> comments == [ToJson(NewComment(author, text, id, createdAt).value)] + old(comments)
      ensures ok ==> |comments| == |old(comments)| + 1 && comments[1..] == old(comments)
      ensures ok ==> store.items == old(store.items)[KeyFor(recipeId) := Doc(JArr(comments))]
      ensures ok ==> Valid()
      ensures old(Valid()) ==> Valid()
      ensures forall r :: Ratings.ReadRatings(store.items, r) == Ratings.ReadRatings(old(store.items), r)
    {
      var c := NewComment(author, text, id, createdAt);
      if c.None? {
        return false;
      }
      comments := [ToJson(c.value)] + comments;
      ghost var before := store.items;
      WriteComments(store, recipeId, comments);
      forall r ensures Ratings.ReadRatings(store.items, r) == Ratings.ReadRatings(before, r) {
        ReadAfterWrite(before, recipeId, r, comments);
      }
      ok := true;
    }

    /**
     * A re-render with a different `recipeId`, as the hook is written: the
     * state is not re-read, and the effect writes the old recipe's list
     * under the new recipe's key.
     */
    method ChangeRecipe(newRecipeId: string)
      modifies this, store
      ensures recipeId == newRecipeId && comments == old(comments)
      ensures newRecipeId == old(recipeId) ==> store.items == old(store.items)
      ensures newRecipeId != old(recipeId) ==>
        store.items == old(store.items)[KeyFor(newRecipeId) := Doc(JArr(old(comments)))]
      ensures old(Valid()) ==> Valid()
    {
      if newRecipeId != recipeId {
        recipeId := newRecipeId;
        WriteComments(store, recipeId, comments);
      }
    }

    /**
     * A re-render with a different `recipeId` that reloads the state first:
     * no recipe's comments read differently, and the state is the new
     * recipe's list.
     */
    method ChangeRecipeReloading(newRecipeId: string)
      modifies this, store
      ensures recipeId == newRecipeId
      ensures newRecipeId == old(recipeId) ==> comments == old(comments) && store.items == old(store.items)
      ensures newRecipeId != old(recipeId) ==> comments == ReadComments(old(store.items), newRecipeId)
      ensures newRecipeId != old(recipeId) ==>
        store.items == old(store.items)[KeyFor(newRecipeId) := Doc(JArr(comments))]
      ensures forall r :: ReadComments(store.items, r) == ReadComments(old(store.items), r)
      ensures old(Valid()) ==> Valid()
    {
      if newRecipeId != recipeId {
        ghost var before := store.items;
        recipeId := newRecipeId;
        comments := ReadComments(store.items, recipeId);
        WriteComments(store, recipeId, comments);
        forall r ensures ReadComments(store.items, r) == ReadComments(before, r) {
          ReadAfterWrite(before, newRecipeId, r, ReadComments(before, newRecipeId));
        }
      }
    }
  }

  /** The accepted text of the scenario below, trimmed. */
  lemma TrimGreat()
    ensures Trim(" Great ") == "Great"
  {
    assert " Great "[1..] == "Great ";
    assert LeadingSpace("Great ") == 0;
    assert LeadingSpace(" Great ") == 1;
    assert "Great "[..5] == "Great";
    assert TrailingSpace("Great") == 0;
    assert TrailingSpace("Great ") == 1;
  }

  /** The refused text of the scenario below, trimmed. */
  lemma TrimX()
    ensures Trim(" x") == "x"
  {
    assert " x"[1..] == "x";
    assert LeadingSpace("x") == 0;
    assert LeadingSpace(" x") == 1;
    assert TrailingSpace("x") == 0;
  }

  /**
   * A first comment with an empty author is stored trimmed under the default
   * author; a one-character comment is then refused and changes nothing.
   */
  method AddCommentScenario() returns (first: bool, second: bool, stored: seq<Json>)
    ensures first && !second
    ensures stored == [ToJson(Comment("c1", DefaultAuthor, "Great", "t1"))]
  {
    var store := new LocalStorage(map[]);
    var hook := new CommentsHook(store, "1");
    TrimGreat();
    TrimX();
    first := hook.AddComment(Some(""), " Great ", "c1", "t1");
    second := hook.AddComment(None, " x", "c2", "t2");
    stored := ReadComments(store.items, "1");
  }

  /** Recipe "2"'s stored comments in the scenarios below. */
  function StoredForRecipe2(): map<string, Stored> {
    map[KeyFor("2") := Doc(JArr([ToJson(Comment("c0", "Bo", "Tasty", "t0"))]))]
  }

  /**
   * Recipe "2" holds one comment; a hook mounted for recipe "1" (which has
   * none) is re-rendered for recipe "2". As written, recipe "2" now reads as
   * recipe "1"'s empty list: its comment is lost without any user action.
   */
  method RecipeChangeScenario() returns (asWritten: seq<Json>)
    ensures asWritten == []
  {
    var store := new LocalStorage(StoredForRecipe2());
    assert KeyFor("1")[12] != KeyFor("2")[12];
    var hook := new CommentsHook(store, "1");
    assert hook.comments == [];
    ghost var before := store.items;
    hook.ChangeRecipe("2");
    ReadAfterWrite(before, "2", "2", []);
    asWritten := ReadComments(store.items, "2");
  }

  /** The same steps with reloading keep recipe "2"'s comment. */
  method RecipeChangeReloadingScenario() returns (reloading: seq<Json>)
    ensures reloading == [ToJson(Comment("c0", "Bo", "Tasty", "t0"))]
  {
    ReadAfterWrite(map[], "2", "2", [ToJson(Comment("c0", "Bo", "Tasty", "t0"))]);
    assert ReadComments(StoredForRecipe2(), "2") == [ToJson(Comment("c0", "Bo", "Tasty", "t0"))];
    var store := new LocalStorage(StoredForRecipe2());
    var hook := new CommentsHook(store, "1");
    hook.ChangeRecipeReloading("2");
    reloading := ReadComments(store.items, "2");
  }
}
