/**
 * The server's relational store, as in-memory tables of rows keyed by their integer primary
 * key, with the next key each auto-increment column hands out. The mapping table is keyed by
 * its unique `item_name_lower` column. A transaction is modelled by computing the new table
 * contents first and assigning them only when every statement succeeded.
 */
module Tables {
  import opened Wrappers
  import opened Domain
  import Ordering

  /** A row of `item_category_mappings`; `lastUsed` is the time of the latest use. */
  datatype Mapping = Mapping(categoryId: int, useCount: int, lastUsed: int)

  /** An HTTP response: a status with a body, or an error status with the `error` message. */
  datatype Reply<+T> = Success(status: int, body: T) | Failure(status: int, message: string)

  ghost predicate KeyedRows<T>(m: map<int, T>, key: T -> int, next: int) {
    && 1 <= next
    && forall k :: k in m ==> key(m[k]) == k && 1 <= k < next
  }

  lemma RemoveRow<T>(m: map<int, T>, key: T -> int, next: int, id: int)
    requires KeyedRows(m, key, next)
    ensures KeyedRows(m - {id}, key, next)
  {
  }

  /** `rows` inserted one after another. */
  function WithRows<T>(m: map<int, T>, rows: seq<T>, key: T -> int): map<int, T>
    decreases |rows|
  {
    if rows == [] then m
    else WithRows(m, rows[..|rows| - 1], key)[key(rows[|rows| - 1]) := rows[|rows| - 1]]
  }

  /**
   * Rows inserted under consecutive fresh keys: the old rows stay, each new row sits under
   * its own key, and the table stays keyed with the counter advanced past them.
   */
  lemma {:induction false} WithConsecutiveRows<T>(m: map<int, T>, rows: seq<T>, key: T -> int, next: int)
    requires KeyedRows(m, key, next)
    requires forall i :: 0 <= i < |rows| ==> key(rows[i]) == next + i
    ensures var r := WithRows(m, rows, key);
      && KeyedRows(r, key, next + |rows|)
      && (forall k :: k in r <==> k in m || next <= k < next + |rows|)
      && (forall k :: k in m ==> r[k] == m[k])
      && (forall i :: 0 <= i < |rows| ==> r[next + i] == rows[i])
  {
    if rows != [] {
      WithConsecutiveRows(m, rows[..|rows| - 1], key, next);
    }
  }

  function IngredientId(i: Ingredient): int { i.id }

  /** The ingredient rows of one recipe: `WHERE recipe_id = ?`. */
  function IngredientsOf(m: map<int, Ingredient>, recipeId: int): map<int, Ingredient> {
    map k | k in m && m[k].recipeId == recipeId :: m[k]
  }

  /** The ingredient rows of every other recipe. */
  function WithoutRecipe(m: map<int, Ingredient>, recipeId: int): map<int, Ingredient> {
    map k | k in m && m[k].recipeId != recipeId :: m[k]
  }

  /** Every ingredient belongs to an existing recipe (the `recipe_id` foreign key). */
  ghost predicate IngredientsOwned(ingredients: map<int, Ingredient>, recipes: map<int, Recipe>) {
    forall k :: k in ingredients ==> ingredients[k].recipeId in recipes
  }
  function RecipeRowId(r: Recipe): int { r.id }

  /** No two categories share a name: the table's unique constraint. */
  ghost predicate UniqueNames(m: map<int, Category>) {
    forall a, b :: a in m && b in m && a != b ==> m[a].name != m[b].name
  }

  lemma RemoveKeepsUniqueNames(m: map<int, Category>, id: int)
    requires UniqueNames(m)
    ensures UniqueNames(m - {id})
  {
  }

  /** The values of one integer column. */
  function Column<T>(m: map<int, T>, f: T -> int): set<int> {
    set k | k in m :: f(m[k])
  }

  /** `(MAX(column) || 0) + 1`: one above every value in the column. */
  method NextAfterMax<T>(m: map<int, T>, f: T -> int) returns (r: int)
    ensures forall k :: k in m ==> f(m[k]) < r
    ensures r - 1 in Column(m, f) || (m == map[] && r == 1)
  {
    var maxValue := Ordering.MaxValue(m, f);
    r := OrNull(maxValue).GetOr(0) + 1;
    if maxValue.Some? {
      var k :| k in m && f(m[k]) == maxValue.value;
      assert f(m[k]) in Column(m, f);
    } else {
      assert m.Keys == {};
    }
  }

  /** A category with this exact name exists. */
  predicate NameTaken(m: map<int, Category>, name: string) {
    exists k :: k in m && m[k].name == name
  }

  class Database {
    var categories: map<int, Category>
    var items: map<int, Item>
    var recipes: map<int, Recipe>
    var ingredients: map<int, Ingredient>
    /** Keyed by the normalised item name. */
    var mappings: map<string, Mapping>
    var nextCategoryId: int
    var nextItemId: int
    var nextRecipeId: int
    var nextIngredientId: int

    ghost predicate Valid()
      reads this`categories, this`items, this`recipes, this`ingredients
      reads this`nextCategoryId, this`nextItemId, this`nextRecipeId, this`nextIngredientId
    {
      && KeyedRows(categories, CategoryId, nextCategoryId)
      && KeyedRows(items, ItemId, nextItemId)
      && KeyedRows(recipes, RecipeRowId, nextRecipeId)
      && KeyedRows(ingredients, IngredientId, nextIngredientId)
      && UniqueNames(categories)
      && IngredientsOwned(ingredients, recipes)
    }

    /** An empty database. */
    constructor ()
      ensures Valid()
      ensures categories == map[] && items == map[] && recipes == map[] && ingredients == map[]
      ensures mappings == map[]
    {
      categories, items, recipes, ingredients := map[], map[], map[], map[];
      mappings := map[];
      nextCategoryId, nextItemId, nextRecipeId, nextIngredientId := 1, 1, 1, 1;
    }

    /** `INSERT INTO categories (name, sort_order)` of a name no row has. */
    method InsertCategory(name: string, sortOrder: int) returns (row: Category)
      requires Valid() && !NameTaken(categories, name)
      modifies this`categories, this`nextCategoryId
      ensures Valid()
      ensures row == Category(old(nextCategoryId), name, sortOrder)
      ensures categories == old(categories)[row.id := row]
      ensures nextCategoryId == old(nextCategoryId) + 1
    {
      row := Category(nextCategoryId, name, sortOrder);
      assert forall k :: k in categories ==> categories[k].name != name;
      assert row.id !in categories;
      categories := categories[row.id := row];
      nextCategoryId := nextCategoryId + 1;
    }
  }

  /** The change-event broadcaster: every event emitted, in order. */
  class EventLog {
    var emitted: seq<ChangeEvent>

    constructor ()
      ensures emitted == []
    {
      emitted := [];
    }

    /** `emitChange(type, data, changeId)`, stamped with the current time. */
    method EmitChange(kind: string, data: EventData, changeId: Option<string>, now: int)
      modifies this
      ensures emitted == old(emitted) + [ChangeEvent(kind, data, changeId, now)]
    {
      emitted := emitted + [ChangeEvent(kind, data, changeId, now)];
    }
  }
}
