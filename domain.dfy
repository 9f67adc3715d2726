/**
 * The records exchanged between the server, the client store and the client cache.
 * They mirror the JSON rows of the REST interface; join columns the server adds
 * for display (`category_name`, `category_sort_order`) are not part of the model.
 */
module Domain {
  import opened Wrappers
  import Text

  /** A JSON value, for request bodies and queued payloads whose shape the model does not inspect. */
  datatype Json = JNull | JBool(b: bool) | JNum(n: int) | JStr(s: string)
                | JArr(elems: seq<Json>) | JObj(fields: map<string, Json>)

  datatype Category = Category(id: int, name: string, sortOrder: int)

  /** `checked` is the integer column: 1 for checked, 0 for unchecked. */
  datatype Item = Item(id: int, name: string, description: Option<string>, amount: Option<string>,
                       categoryId: Option<int>, checked: int, position: int,
                       createdAt: int, updatedAt: int)

  datatype Ingredient = Ingredient(id: int, recipeId: int, name: string, description: Option<string>,
                                   amount: Option<string>, categoryId: Option<int>, position: int)

  /** A row of the recipes table. */
  datatype Recipe = Recipe(id: int, name: string)

  /** A recipe as the client holds it: list rows carry no ingredients, detail rows do. */
  datatype RecipeRecord = RecipeRecord(id: int, name: string, ingredients: Option<seq<Ingredient>>)

  /** The payload of a change event pushed to live clients. */
  datatype EventData = ItemData(item: Item) | RecipeData(recipe: RecipeRecord) | IdData(id: int)

  datatype ChangeEvent = ChangeEvent(kind: string, data: EventData, changeId: Option<string>, timestamp: int)

  function CategoryId(c: Category): int { c.id }
  function ItemId(i: Item): int { i.id }
  function ItemPosition(i: Item): int { i.position }
  function RecipeId(r: RecipeRecord): int { r.id }

  /** The order categories are listed in: by `sort_order`, ties by id. */
  function CategoryOrder(c: Category): seq<int> { [c.sortOrder, c.id] }

  /** JavaScript truthiness of a nullable number: `null` and `0` are falsy. */
  predicate Truthy(o: Option<int>) {
    o.Some? && o.value != 0
  }

  /**
   * `x || null` for a nullable number: a stored category is never 0, truthiness is kept, and a
   * truthy value passes through unchanged.
   */
  function OrNull(o: Option<int>): (r: Option<int>)
    ensures r != Some(0)
    ensures Truthy(r) <==> Truthy(o)
    ensures Truthy(o) ==> r == o
  {
    if Truthy(o) then o else None
  }

  /**
   * `s?.trim() || null`: a stored text is null or non-empty with no whitespace at either end,
   * and it is null exactly when the input was missing or blank.
   */
  function TrimOrNull(s: Option<string>): (r: Option<string>)
    ensures r.None? <==> (s.None? || Text.IsBlank(s.value))
    ensures r.Some? ==> r.value == Text.Trim(s.value)
    ensures r.Some? ==>
      && r.value != [] && Text.Trim(r.value) == r.value
      && !Text.IsSpace(r.value[0]) && !Text.IsSpace(r.value[|r.value| - 1])
  {
    if s.Some? && !Text.IsBlank(s.value) then
      Text.TrimIdempotent(s.value);
      Text.TrimEnds(s.value);
      Some(Text.Trim(s.value))
    else None
  }

  /** `s || null` for a nullable text: the empty string becomes null, and any other text is kept. */
  function EmptyToNull(s: Option<string>): (r: Option<string>)
    ensures r.None? <==> (s.None? || s.value == "")
    ensures r.Some? ==> r == s
    ensures r != Some("")
  {
    if s.Some? && s.value != "" then s else None
  }

  /** Applying a `|| null` normalisation to its own result changes nothing. */
  lemma NullFormsIdempotent(o: Option<int>, s: Option<string>)
    ensures OrNull(OrNull(o)) == OrNull(o)
    ensures TrimOrNull(TrimOrNull(s)) == TrimOrNull(s)
    ensures EmptyToNull(EmptyToNull(s)) == EmptyToNull(s)
  {
  }

  /** `item.checked` read as a JavaScript condition. */
  predicate IsChecked(i: Item) {
    i.checked != 0
  }

  predicate IsUnchecked(i: Item) {
    !IsChecked(i)
  }

  /** One element of a reorder request body, `{ id, sort_order }`; either may be missing. */
  datatype ReorderEntry = ReorderEntry(id: Option<int>, sortOrder: Option<int>)
}
