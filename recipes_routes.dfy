/**
 * The recipe endpoints (backend/src/routes/recipes.js): listing by name, detail with the
 * ingredients by position, create and replace as transactions over the ingredient rows,
 * delete with its ingredients, and adding a recipe's ingredients to the shopping list.
 */
module RecipeRoutes {
  import opened Wrappers
  import opened Domain
  import Text
  import Ordering
  import opened Tables
  import Categorization

  /**
   * A name as a key for `ORDER BY name`: each character code shifted past a terminating 0,
   * so that a name sorts before every longer name it is a prefix of.
   */
  function NameKey(s: string): (r: seq<int>)
    ensures |r| == |s| && forall i :: 0 <= i < |s| ==> r[i] == s[i] as int + 1
  {
    seq(|s|, i requires 0 <= i < |s| => s[i] as int + 1)
  }

  function RecipeOrder(r: Recipe): seq<int> { NameKey(r.name) + [0, r.id] }

  /** The detail listing's `ORDER BY position`, ties by row id. */
  function IngredientOrder(i: Ingredient): seq<int> { [i.position, i.id] }

  /** Row-id order, as a query without `ORDER BY` returns rows. */
  function RowOrder(i: Ingredient): seq<int> { [i.id] }

  /** Of two recipes whose names start alike, the one with the smaller next character comes first. */
  lemma RecipeOrderByName(a: Recipe, b: Recipe, n: int)
    requires 0 <= n < |a.name| && n < |b.name| && a.name[..n] == b.name[..n] && a.name[n] < b.name[n]
    ensures Ordering.LexLess(RecipeOrder(a), RecipeOrder(b))
  {
    RecipeOrderPrefix(RecipeOrder(a), RecipeOrder(b), n);
  }

  lemma {:induction false} RecipeOrderPrefix(a: seq<int>, b: seq<int>, n: nat)
    requires n < |a| && n < |b| && a[..n] == b[..n] && a[n] < b[n]
    ensures Ordering.LexLess(a, b)
  {
    if n > 0 {
      assert a[0] == a[..n][0] == b[..n][0] == b[0];
      assert a[1..][..n - 1] == a[..n][1..] == b[..n][1..] == b[1..][..n - 1];
      RecipeOrderPrefix(a[1..], b[1..], n - 1);
    }
  }

  /** A recipe whose name is a proper prefix of another's comes first. */
  lemma RecipeOrderPrefixFirst(a: Recipe, b: Recipe)
    requires |a.name| < |b.name| && a.name == b.name[..|a.name|]
    ensures Ordering.LexLess(RecipeOrder(a), RecipeOrder(b))
  {
    var n := |a.name|;
    var ka, kb := RecipeOrder(a), RecipeOrder(b);
    assert ka[..n] == kb[..n];
    assert ka[n] == 0 < kb[n];
    RecipeOrderPrefix(ka, kb, n);
  }

  /** `GET /api/recipes`: every recipe, by name. */
  method ListRecipes(db: Database) returns (r: seq<Recipe>)
    requires db.Valid()
    ensures Ordering.Ordered(r, RecipeOrder)
    ensures |r| == |db.recipes|
    ensures forall x :: x in r <==> x in db.recipes.Values
  {
    Ordering.KeyEndsInId(db.recipes, RecipeOrder);
    r := Ordering.SortedValues(db.recipes, RecipeOrder);
  }

  /** The recipe row with its ingredients by position. */
  method Detail(db: Database, id: int) returns (r: RecipeRecord)
    requires db.Valid() && id in db.recipes
    ensures r.id == id && r.name == db.recipes[id].name && r.ingredients.Some?
    ensures Ordering.Ordered(r.ingredients.value, IngredientOrder)
    ensures forall x :: x in r.ingredients.value <==> x in IngredientsOf(db.ingredients, id).Values
  {
    var rows := IngredientsOf(db.ingredients, id);
    Ordering.KeyEndsInId(rows, IngredientOrder);
    var ordered := Ordering.SortedValues(rows, IngredientOrder);
    r := RecipeRecord(id, db.recipes[id].name, Some(ordered));
  }

  /** `GET /api/recipes/:id`: 404 for an unknown id, else the recipe with its ingredients. */
  method GetRecipe(db: Database, id: int) returns (r: Reply<RecipeRecord>)
    requires db.Valid()
    ensures r.Success? <==> id in db.recipes
    ensures r.Failure? ==> r.status == 404
    ensures r.Success? ==>
      && r.status == 200 && r.body.id == id && r.body.name == db.recipes[id].name
      && r.body.ingredients.Some?
      && Ordering.Ordered(r.body.ingredients.value, IngredientOrder)
      && forall x :: x in r.body.ingredients.value <==> x in IngredientsOf(db.ingredients, id).Values
  {
    if id !in db.recipes {
      return Failure(404, "Recipe not found");
    }
    var detail := Detail(db, id);
    r := Success(200, detail);
  }

  /** One element of a request's `ingredients`. */
  datatype IngredientInput = IngredientInput(name: Option<string>, description: Option<string>,
                                             amount: Option<string>, categoryId: Option<int>,
                                             position: Option<int>)

  /** A create or replace request body; a missing `ingredients` is the empty list. */
  datatype RecipeInput = RecipeInput(name: Option<string>, ingredients: seq<IngredientInput>,
                                     changeId: Option<string>)

  predicate MissingName(name: Option<string>) {
    name.None? || Text.IsBlank(name.value)
  }

  /**
   * The row stored for one ingredient: trimmed texts, the requested category when truthy or
   * else the one learned for the name, and the position or 0.
   */
  function IngredientRow(mappings: map<string, Mapping>, recipeId: int, id: int, x: IngredientInput): Ingredient
    requires !MissingName(x.name)
  {
    var name := Text.Trim(x.name.value);
    var categoryId := if Truthy(x.categoryId) then x.categoryId
                      else Categorization.Suggestion(mappings, Text.Normalize(name));
    Ingredient(id, recipeId, name, TrimOrNull(x.description), TrimOrNull(x.amount),
               OrNull(categoryId), OrNull(x.position).GetOr(0))
  }

  lemma IngredientRowFields(mappings: map<string, Mapping>, recipeId: int, id: int, x: IngredientInput)
    requires !MissingName(x.name)
    ensures var r := IngredientRow(mappings, recipeId, id, x);
      && r.id == id && r.recipeId == recipeId && r.name == Text.Trim(x.name.value)
      && r.description == TrimOrNull(x.description) && r.amount == TrimOrNull(x.amount)
      && (Truthy(x.categoryId) ==> r.categoryId == x.categoryId)
      && (!Truthy(x.categoryId) ==>
            r.categoryId == OrNull(Categorization.Suggestion(mappings, Text.Normalize(Text.Trim(x.name.value)))))
      && r.position == (if Truthy(x.position) then x.position.value else 0)
  {
  }

  /**
   * The rows the ingredient loop inserts, with consecutive ids from `firstId`, or `None` when
   * an ingredient without a name aborts the transaction.
   */
  function Rows(mappings: map<string, Mapping>, recipeId: int, firstId: int, xs: seq<IngredientInput>): Option<seq<Ingredient>>
    decreases |xs|
  {
    if xs == [] then Some([])
    else if MissingName(xs[0].name) then None
    else Prepend([IngredientRow(mappings, recipeId, firstId, xs[0])], Rows(mappings, recipeId, firstId + 1, xs[1..]))
  }

  function Prepend(done: seq<Ingredient>, rest: Option<seq<Ingredient>>): Option<seq<Ingredient>> {
    if rest.None? then None else Some(done + rest.value)
  }

  /** The loop aborts exactly when some ingredient has a blank name. */
  lemma {:induction false} RowsAbortIffUnnamed(mappings: map<string, Mapping>, recipeId: int, firstId: int, xs: seq<IngredientInput>)
    ensures Rows(mappings, recipeId, firstId, xs).None? <==> exists i :: 0 <= i < |xs| && MissingName(xs[i].name)
    decreases |xs|
  {
    if xs != [] {
      if MissingName(xs[0].name) {
        var w := 0;
        assert MissingName(xs[w].name);
      } else {
        RowsAbortIffUnnamed(mappings, recipeId, firstId + 1, xs[1..]);
        if exists i :: 0 <= i < |xs| && MissingName(xs[i].name) {
          var i :| 0 <= i < |xs| && MissingName(xs[i].name);
          assert xs[1..][i - 1] == xs[i];
        }
        if exists i :: 0 <= i < |xs[1..]| && MissingName(xs[1..][i].name) {
          var i :| 0 <= i < |xs[1..]| && MissingName(xs[1..][i].name);
          assert xs[i + 1] == xs[1..][i];
        }
      }
    }
  }

  /** Row `i` is ingredient `i` of the request, stored under id `firstId + i`. */
  lemma {:induction false} RowsAreIngredients(mappings: map<string, Mapping>, recipeId: int, firstId: int, xs: seq<IngredientInput>)
    requires Rows(mappings, recipeId, firstId, xs).Some?
    ensures var rows := Rows(mappings, recipeId, firstId, xs).value;
      && |rows| == |xs|
      && forall i :: 0 <= i < |xs| ==>
           !MissingName(xs[i].name) && rows[i] == IngredientRow(mappings, recipeId, firstId + i, xs[i])
    decreases |xs|
  {
    if xs != [] {
      RowsAreIngredients(mappings, recipeId, firstId + 1, xs[1..]);
      var tail := Rows(mappings, recipeId, firstId + 1, xs[1..]).value;
      var rows := Rows(mappings, recipeId, firstId, xs).value;
      assert rows == [IngredientRow(mappings, recipeId, firstId, xs[0])] + tail;
      forall i | 0 <= i < |xs|
        ensures !MissingName(xs[i].name) && rows[i] == IngredientRow(mappings, recipeId, firstId + i, xs[i])
      {
        if i > 0 {
          assert xs[1..][i - 1] == xs[i] && rows[i] == tail[i - 1];
        }
      }
    }
  }

  /**
   * The ingredient loop of create and replace: the rows for `xs` and the table with them
   * added to `table`, or `None` when an ingredient has no name.
   */
  method InsertIngredients(db: Database, recipeId: int, xs: seq<IngredientInput>, table: map<int, Ingredient>)
    returns (rows: Option<seq<Ingredient>>, updated: map<int, Ingredient>)
    ensures rows == Rows(db.mappings, recipeId, db.nextIngredientId, xs)
    ensures rows.Some? ==> updated == WithRows(table, rows.value, IngredientId)
  {
    ghost var m, first := db.mappings, db.nextIngredientId;
    var done: seq<Ingredient> := [];
    updated := table;
    for i := 0 to |xs|
      invariant |done| == i
      invariant forall j :: 0 <= j < i ==> !MissingName(xs[j].name) && done[j] == IngredientRow(m, recipeId, first + j, xs[j])
      invariant updated == WithRows(table, done, IngredientId)
    {
      var x := xs[i];
      if MissingName(x.name) {
        RowsAbortIffUnnamed(m, recipeId, first, xs);
        return None, updated;
      }
      var row := BuildRow(db, recipeId, db.nextIngredientId + i, x);
      assert (done + [row])[..|done|] == done;
      updated := updated[row.id := row];
      done := done + [row];
    }
    RowsOfNamed(m, recipeId, first, xs, done);
    rows := Some(done);
  }

  /** When every ingredient has a name, the loop inserts exactly their rows. */
  lemma {:induction false} RowsOfNamed(mappings: map<string, Mapping>, recipeId: int, firstId: int,
                                       xs: seq<IngredientInput>, rows: seq<Ingredient>)
    requires |rows| == |xs|
    requires forall j :: 0 <= j < |xs| ==>
      !MissingName(xs[j].name) && rows[j] == IngredientRow(mappings, recipeId, firstId + j, xs[j])
    ensures Rows(mappings, recipeId, firstId, xs) == Some(rows)
    decreases |xs|
  {
    if xs != [] {
      forall j | 0 <= j < |xs[1..]|
        ensures !MissingName(xs[1..][j].name)
        ensures rows[1..][j] == IngredientRow(mappings, recipeId, firstId + 1 + j, xs[1..][j])
      {
        assert xs[1..][j] == xs[j + 1];
      }
      RowsOfNamed(mappings, recipeId, firstId + 1, xs[1..], rows[1..]);
      assert rows == [rows[0]] + rows[1..];
    }
  }

  /** One ingredient row, with the category suggestion read from the mappings table. */
  method BuildRow(db: Database, recipeId: int, id: int, x: IngredientInput) returns (row: Ingredient)
    requires !MissingName(x.name)
    ensures row == IngredientRow(db.mappings, recipeId, id, x)
  {
    var name := Text.Trim(x.name.value);
    var categoryId := x.categoryId;
    if !Truthy(categoryId) {
      categoryId := Categorization.GetSuggestedCategory(db, name);
    }
    row := Ingredient(id, recipeId, name, TrimOrNull(x.description), TrimOrNull(x.amount),
                      OrNull(categoryId), OrNull(x.position).GetOr(0));
  }

  /** The ingredients of a recipe are exactly the rows just inserted for it. */
  lemma NewRowsAreRecipeIngredients(base: map<int, Ingredient>, rows: seq<Ingredient>, recipeId: int, next: int)
    requires KeyedRows(base, IngredientId, next)
    requires forall k :: k in base ==> base[k].recipeId != recipeId
    requires forall i :: 0 <= i < |rows| ==> rows[i].id == next + i && rows[i].recipeId == recipeId
    ensures forall x :: x in IngredientsOf(WithRows(base, rows, IngredientId), recipeId).Values <==> x in rows
  {
    var r := WithRows(base, rows, IngredientId);
    WithConsecutiveRows(base, rows, IngredientId, next);
    var mine := IngredientsOf(r, recipeId);
    forall x | x in rows
      ensures x in mine.Values
    {
      var i :| 0 <= i < |rows| && rows[i] == x;
      assert mine[next + i] == x;
    }
    forall x | x in mine.Values
      ensures x in rows
    {
      Ordering.ValueHasKey(mine, x);
      var k :| k in mine && mine[k] == x;
      assert rows[k - next] == x;
    }
  }

  /** Inserted rows for an existing recipe keep the table keyed and owned. */
  lemma InsertedRowsKeepValid(db: Database, base: map<int, Ingredient>, rows: seq<Ingredient>, recipeId: int)
    requires KeyedRows(base, IngredientId, db.nextIngredientId)
    requires IngredientsOwned(base, db.recipes) && recipeId in db.recipes
    requires forall i :: 0 <= i < |rows| ==> rows[i].id == db.nextIngredientId + i && rows[i].recipeId == recipeId
    ensures KeyedRows(WithRows(base, rows, IngredientId), IngredientId, db.nextIngredientId + |rows|)
    ensures IngredientsOwned(WithRows(base, rows, IngredientId), db.recipes)
  {
    WithConsecutiveRows(base, rows, IngredientId, db.nextIngredientId);
  }

  /**
   * The commit of the ingredient loop for a stored recipe: `base` (the other recipes' rows)
   * plus the new rows becomes the table, and the recipe's ingredients are exactly the new rows.
   */
  method StoreIngredients(db: Database, id: int, base: map<int, Ingredient>, rows: seq<Ingredient>, updated: map<int, Ingredient>)
    requires db.Valid() && id in db.recipes
    requires KeyedRows(base, IngredientId, db.nextIngredientId) && IngredientsOwned(base, db.recipes)
    requires forall k :: k in base ==> base[k].recipeId != id
    requires forall i :: 0 <= i < |rows| ==> rows[i].id == db.nextIngredientId + i && rows[i].recipeId == id
    requires updated == WithRows(base, rows, IngredientId)
    modifies db`ingredients, db`nextIngredientId
    ensures db.Valid()
    ensures db.ingredients == updated && db.nextIngredientId == old(db.nextIngredientId) + |rows|
    ensures forall x :: x in IngredientsOf(db.ingredients, id).Values <==> x in rows
  {
    NewRowsAreRecipeIngredients(base, rows, id, db.nextIngredientId);
    InsertedRowsKeepValid(db, base, rows, id);
    db.ingredients := updated;
    db.nextIngredientId := db.nextIngredientId + |rows|;
  }

  /**
   * `POST /api/recipes`: 400 for a blank name. The recipe row and its ingredient rows are
   * inserted in one transaction; an unnamed ingredient aborts it with 500 and no change.
   * Otherwise the new recipe with exactly those ingredients is returned (201) and announced
   * as `recipe-created`.
   */
  method CreateRecipe(db: Database, log: EventLog, body: RecipeInput, now: int) returns (r: Reply<RecipeRecord>)
    requires db.Valid()
    modifies db`recipes, db`nextRecipeId, db`ingredients, db`nextIngredientId, log
    ensures db.Valid()
    ensures r.Failure? ==>
      && db.recipes == old(db.recipes) && db.ingredients == old(db.ingredients)
      && db.nextRecipeId == old(db.nextRecipeId) && db.nextIngredientId == old(db.nextIngredientId)
      && log.emitted == old(log.emitted)
    ensures r.Failure? && r.status == 400 <==> MissingName(body.name)
    ensures var rows := Rows(old(db.mappings), old(db.nextRecipeId), old(db.nextIngredientId), body.ingredients);
      !MissingName(body.name) && rows.None? ==> r == Failure(500, "Each ingredient must have a name")
    ensures r.Success? <==>
      && !MissingName(body.name)
      && Rows(old(db.mappings), old(db.nextRecipeId), old(db.nextIngredientId), body.ingredients).Some?
    ensures r.Success? ==>
      var id := old(db.nextRecipeId);
      var rows := Rows(old(db.mappings), id, old(db.nextIngredientId), body.ingredients);
      && !MissingName(body.name) && rows.Some? && r.status == 201
      && db.recipes == old(db.recipes)[id := Recipe(id, Text.Trim(body.name.value))]
      && db.ingredients == WithRows(old(db.ingredients), rows.value, IngredientId)
      && r.body.id == id && r.body.name == Text.Trim(body.name.value) && r.body.ingredients.Some?
      && Ordering.Ordered(r.body.ingredients.value, IngredientOrder)
      && (forall x :: x in r.body.ingredients.value <==> x in rows.value)
      && log.emitted == old(log.emitted) + [ChangeEvent("recipe-created", RecipeData(r.body), body.changeId, now)]
  {
    if MissingName(body.name) {
      return Failure(400, "Recipe name is required");
    }
    var id := db.nextRecipeId;
    var rows, updated := InsertIngredients(db, id, body.ingredients, db.ingredients);
    if rows.None? {
      return Failure(500, "Each ingredient must have a name");
    }
    RowsAreIngredients(db.mappings, id, db.nextIngredientId, body.ingredients);
    db.recipes := db.recipes[id := Recipe(id, Text.Trim(body.name.value))];
    db.nextRecipeId := db.nextRecipeId + 1;
    StoreIngredients(db, id, db.ingredients, rows.value, updated);
    var created := Detail(db, id);
    log.EmitChange("recipe-created", RecipeData(created), body.changeId, now);
    r := Success(201, created);
  }

  /**
   * `PUT /api/recipes/:id`: 400 for a blank name, then 404 for an unknown id. The name and
   * the whole ingredient list are replaced in one transaction; an unnamed ingredient aborts it
   * with 500 and no change. Otherwise the recipe with exactly the new ingredients is returned
   * and announced as `recipe-updated`.
   */
  method UpdateRecipe(db: Database, log: EventLog, id: int, body: RecipeInput, now: int) returns (r: Reply<RecipeRecord>)
    requires db.Valid()
    modifies db`recipes, db`ingredients, db`nextIngredientId, log
    ensures db.Valid()
    ensures r.Failure? ==>
      && db.recipes == old(db.recipes) && db.ingredients == old(db.ingredients)
      && db.nextIngredientId == old(db.nextIngredientId) && log.emitted == old(log.emitted)
    ensures r.Failure? && r.status == 400 <==> MissingName(body.name)
    ensures r.Failure? && r.status == 404 <==> !MissingName(body.name) && id !in old(db.recipes)
    ensures var rows := Rows(old(db.mappings), id, old(db.nextIngredientId), body.ingredients);
      !MissingName(body.name) && id in old(db.recipes) && rows.None? ==>
        r == Failure(500, "Each ingredient must have a name")
    ensures r.Success? <==>
      && !MissingName(body.name) && id in old(db.recipes)
      && Rows(old(db.mappings), id, old(db.nextIngredientId), body.ingredients).Some?
    ensures r.Success? ==>
      var rows := Rows(old(db.mappings), id, old(db.nextIngredientId), body.ingredients);
      && !MissingName(body.name) && id in old(db.recipes) && rows.Some? && r.status == 200
      && db.recipes == old(db.recipes)[id := Recipe(id, Text.Trim(body.name.value))]
      && db.ingredients == WithRows(WithoutRecipe(old(db.ingredients), id), rows.value, IngredientId)
      && r.body.id == id && r.body.name == Text.Trim(body.name.value) && r.body.ingredients.Some?
      && Ordering.Ordered(r.body.ingredients.value, IngredientOrder)
      && (forall x :: x in r.body.ingredients.value <==> x in rows.value)
      && log.emitted == old(log.emitted) + [ChangeEvent("recipe-updated", RecipeData(r.body), body.changeId, now)]
  {
    if MissingName(body.name) {
      return Failure(400, "Recipe name is required");
    }
    if id !in db.recipes {
      return Failure(404, "Recipe not found");
    }
    var kept := WithoutRecipe(db.ingredients, id);
    var rows, updated := InsertIngredients(db, id, body.ingredients, kept);
    if rows.None? {
      return Failure(500, "Each ingredient must have a name");
    }
    RowsAreIngredients(db.mappings, id, db.nextIngredientId, body.ingredients);
    db.recipes := db.recipes[id := Recipe(id, Text.Trim(body.name.value))];
    StoreIngredients(db, id, kept, rows.value, updated);
    var changed := Detail(db, id);
    log.EmitChange("recipe-updated", RecipeData(changed), body.changeId, now);
    r := Success(200, changed);
  }

  /**
   * `DELETE /api/recipes/:id`: 404 for an unknown id; otherwise the recipe and, by the
   * cascading foreign key, its ingredients go (204) and `recipe-deleted` is announced.
   */
  method DeleteRecipe(db: Database, log: EventLog, id: int, changeId: Option<string>, now: int) returns (r: Reply<()>)
    requires db.Valid()
    modifies db`recipes, db`ingredients, log
    ensures db.Valid()
    ensures r.Success? <==> id in old(db.recipes)
    ensures r.Failure? ==>
      r.status == 404 && db.recipes == old(db.recipes) && db.ingredients == old(db.ingredients)
      && log.emitted == old(log.emitted)
    ensures r.Success? ==>
      && r.status == 204
      && db.recipes == old(db.recipes) - {id}
      && db.ingredients == WithoutRecipe(old(db.ingredients), id)
      && log.emitted == old(log.emitted) + [ChangeEvent("recipe-deleted", IdData(id), changeId, now)]
  {
    if id !in db.recipes {
      return Failure(404, "Recipe not found");
    }
    db.recipes := db.recipes - {id};
    db.ingredients := WithoutRecipe(db.ingredients, id);
    log.EmitChange("recipe-deleted", IdData(id), changeId, now);
    r := Success(204, ());
  }

  /** The list item added for an ingredient: its texts as stored, unchecked, at `position`. */
  function ItemFor(ing: Ingredient, id: int, position: int, now: int): (r: Item)
    ensures r.id == id && r.name == ing.name && r.position == position && r.checked == 0
    ensures r.description == EmptyToNull(ing.description) && r.amount == EmptyToNull(ing.amount)
    ensures r.categoryId == OrNull(ing.categoryId)
    ensures r.createdAt == now && r.updatedAt == now
  {
    Item(id, ing.name, EmptyToNull(ing.description), EmptyToNull(ing.amount), OrNull(ing.categoryId),
         0, position, now, now)
  }

  /** The mappings after learning the category of every ingredient that has a truthy one, in order. */
  function LearnAll(m: map<string, Mapping>, ings: seq<Ingredient>, now: int): map<string, Mapping>
    decreases |ings|
  {
    if ings == [] then m
    else
      var prev := LearnAll(m, ings[..|ings| - 1], now);
      var ing := ings[|ings| - 1];
      if Truthy(ing.categoryId) then Categorization.Learned(prev, Text.Normalize(ing.name), ing.categoryId.value, now)
      else prev
  }

  /** An ingredient whose category is truthy is suggested that category afterwards, unless a later one of the same name overrides it. */
  lemma LearnAllSuggestsLast(m: map<string, Mapping>, ings: seq<Ingredient>, now: int, i: int)
    requires 0 <= i < |ings| && Truthy(ings[i].categoryId)
    requires forall j :: i < j < |ings| && Truthy(ings[j].categoryId) ==> Text.Normalize(ings[j].name) != Text.Normalize(ings[i].name)
    ensures Categorization.Suggestion(LearnAll(m, ings, now), Text.Normalize(ings[i].name)) == ings[i].categoryId
    decreases |ings|
  {
    var key := Text.Normalize(ings[i].name);
    var n := |ings| - 1;
    if i == n {
      Categorization.LearnThenSuggest(LearnAll(m, ings[..n], now), key, ings[i].categoryId.value, now);
    } else {
      var pre := ings[..n];
      assert pre[i] == ings[i];
      forall j | i < j < |pre| && Truthy(pre[j].categoryId)
        ensures Text.Normalize(pre[j].name) != key
      {
        assert pre[j] == ings[j];
      }
      LearnAllSuggestsLast(m, pre, now, i);
      if Truthy(ings[n].categoryId) {
        Categorization.LearnLeavesOthers(LearnAll(m, pre, now), Text.Normalize(ings[n].name), ings[n].categoryId.value, now, key);
      }
    }
  }

  /** One `item-created` event per added item, in order. */
  function CreatedEvents(items: seq<Item>, changeId: Option<string>, now: int): (r: seq<ChangeEvent>)
    ensures |r| == |items|
    ensures forall i :: 0 <= i < |items| ==> r[i] == ChangeEvent("item-created", ItemData(items[i]), changeId, now)
    decreases |items|
  {
    if items == [] then []
    else CreatedEvents(items[..|items| - 1], changeId, now) + [ChangeEvent("item-created", ItemData(items[|items| - 1]), changeId, now)]
  }

  /**
   * `POST /api/recipes/:id/add-to-list`: `ings` are the recipe's ingredient rows as read
   * (row-id order). With none, 404 and no change. Otherwise one unchecked item per ingredient
   * is added at consecutive positions after the end of the list, the truthy categories are
   * learned, one `item-created` event per item is announced, and the items are returned (201).
   */
  method AddRecipeToList(db: Database, log: EventLog, id: int, changeId: Option<string>, now: int)
    returns (ings: seq<Ingredient>, r: Reply<seq<Item>>)
    requires db.Valid()
    modifies db`items, db`nextItemId, db`mappings, log
    ensures db.Valid()
    ensures Ordering.Ordered(ings, RowOrder)
    ensures forall x :: x in ings <==> x in IngredientsOf(db.ingredients, id).Values
    ensures r.Failure? <==> ings == []
    ensures r.Failure? ==>
      && r.status == 404 && db.items == old(db.items) && db.nextItemId == old(db.nextItemId)
      && db.mappings == old(db.mappings) && log.emitted == old(log.emitted)
    ensures r.Success? ==> r.status == 201 && |r.body| == |ings| > 0
    ensures r.Success? ==>
      var first := r.body[0].position;
      && (forall i :: 0 <= i < |ings| ==> r.body[i] == ItemFor(ings[i], old(db.nextItemId) + i, first + i, now))
      && (forall k :: k in old(db.items) ==> old(db.items)[k].position < first)
      && (first - 1 in Column(old(db.items), ItemPosition) || (old(db.items) == map[] && first == 1))
      && db.items == WithRows(old(db.items), r.body, ItemId)
      && db.nextItemId == old(db.nextItemId) + |ings|
      && db.mappings == LearnAll(old(db.mappings), ings, now)
      && log.emitted == old(log.emitted) + CreatedEvents(r.body, changeId, now)
  {
    ings := RecipeIngredientRows(db, id);
    if ings == [] {
      return ings, Failure(404, "Recipe not found or has no ingredients");
    }
    var added := AddItems(db, log, ings, changeId, now);
    r := Success(201, added);
  }

  /** `SELECT * FROM recipe_ingredients WHERE recipe_id = ?`, in row-id order. */
  method RecipeIngredientRows(db: Database, id: int) returns (ings: seq<Ingredient>)
    requires db.Valid()
    ensures Ordering.Ordered(ings, RowOrder)
    ensures forall x :: x in ings <==> x in IngredientsOf(db.ingredients, id).Values
  {
    var rows := IngredientsOf(db.ingredients, id);
    Ordering.KeyEndsInId(rows, RowOrder);
    ings := Ordering.SortedValues(rows, RowOrder);
  }

  /** The success path of add-to-list: items after the end of the list, then their events. */
  method AddItems(db: Database, log: EventLog, ings: seq<Ingredient>, changeId: Option<string>, now: int)
    returns (added: seq<Item>)
    requires db.Valid() && ings != []
    modifies db`items, db`nextItemId, db`mappings, log
    ensures db.Valid()
    ensures |added| == |ings|
    ensures
      var first := added[0].position;
      && (forall i :: 0 <= i < |ings| ==> added[i] == ItemFor(ings[i], old(db.nextItemId) + i, first + i, now))
      && (forall k :: k in old(db.items) ==> old(db.items)[k].position < first)
      && (first - 1 in Column(old(db.items), ItemPosition) || (old(db.items) == map[] && first == 1))
      && db.items == WithRows(old(db.items), added, ItemId)
      && db.nextItemId == old(db.nextItemId) + |ings|
      && db.mappings == LearnAll(old(db.mappings), ings, now)
      && log.emitted == old(log.emitted) + CreatedEvents(added, changeId, now)
  {
    var nextPosition := NextAfterMax(db.items, ItemPosition);
    added := InsertItems(db, ings, nextPosition, now);
    EmitCreated(log, added, changeId, now);
  }

  /** The insert loop of add-to-list: one item per ingredient, positions from `firstPosition`. */
  method InsertItems(db: Database, ings: seq<Ingredient>, firstPosition: int, now: int) returns (added: seq<Item>)
    requires db.Valid()
    modifies db`items, db`nextItemId, db`mappings
    ensures db.Valid()
    ensures |added| == |ings|
    ensures forall i :: 0 <= i < |ings| ==> added[i] == ItemFor(ings[i], old(db.nextItemId) + i, firstPosition + i, now)
    ensures db.items == WithRows(old(db.items), added, ItemId)
    ensures db.nextItemId == old(db.nextItemId) + |ings|
    ensures db.mappings == LearnAll(old(db.mappings), ings, now)
  {
    ghost var items0, next0, mappings0 := db.items, db.nextItemId, db.mappings;
    var nextPosition := firstPosition;
    added := [];
    for i := 0 to |ings|
      invariant |added| == i && nextPosition == firstPosition + i && db.nextItemId == next0 + i
      invariant forall j :: 0 <= j < i ==> added[j] == ItemFor(ings[j], next0 + j, firstPosition + j, now)
      invariant db.items == WithRows(items0, added, ItemId)
      invariant db.mappings == LearnAll(mappings0, ings[..i], now)
      invariant db.Valid()
    {
      var row := InsertItem(db, ings[i], nextPosition, now);
      nextPosition := nextPosition + 1;
      assert (added + [row])[..i] == added;
      assert WithRows(items0, added + [row], ItemId) == db.items;
      assert ings[..i + 1][..i] == ings[..i];
      assert LearnAll(mappings0, ings[..i + 1], now) == db.mappings;
      added := added + [row];
    }
    assert ings[..|ings|] == ings;
  }

  /** One turn of the insert loop: the item row for `ing`, then learning its category when truthy. */
  method InsertItem(db: Database, ing: Ingredient, position: int, now: int) returns (row: Item)
    requires db.Valid()
    modifies db`items, db`nextItemId, db`mappings
    ensures db.Valid()
    ensures row == ItemFor(ing, old(db.nextItemId), position, now) && row.id !in old(db.items)
    ensures db.items == old(db.items)[row.id := row] && db.nextItemId == old(db.nextItemId) + 1
    ensures db.mappings == if Truthy(ing.categoryId)
      then Categorization.Learned(old(db.mappings), Text.Normalize(ing.name), ing.categoryId.value, now)
      else old(db.mappings)
  {
    row := Item(db.nextItemId, ing.name, EmptyToNull(ing.description), EmptyToNull(ing.amount),
                OrNull(ing.categoryId), 0, position, now, now);
    assert row.id !in db.items;
    db.items := db.items[row.id := row];
    db.nextItemId := db.nextItemId + 1;
    if Truthy(ing.categoryId) {
      Categorization.LearnCategoryMapping(db, ing.name, ing.categoryId.value, now);
    }
  }

  /** `addedItems.forEach(item => emitChange('item-created', item, changeId))` */
  method EmitCreated(log: EventLog, added: seq<Item>, changeId: Option<string>, now: int)
    modifies log
    ensures log.emitted == old(log.emitted) + CreatedEvents(added, changeId, now)
  {
    for i := 0 to |added|
      invariant log.emitted == old(log.emitted) + CreatedEvents(added[..i], changeId, now)
    {
      assert added[..i + 1][..i] == added[..i];
      log.EmitChange("item-created", ItemData(added[i]), changeId, now);
    }
    assert added[..|added|] == added;
  }
}
