/**
 * The item endpoints (backend/src/routes/items.js): the shopping-list order, create with
 * auto-categorisation from the learned mappings, edit, check/uncheck, and the deletes.
 */
module ItemRoutes {
  import opened Wrappers
  import opened Domain
  import Text
  import Ordering
  import opened Tables
  import Categorization

  /**
   * The `ORDER BY` of the item listing as a key: unchecked before checked, then the joined
   * category's sort order with uncategorised items (a `NULL` sort order) first, then the
   * position in the list, the creation time, and finally the row id.
   */
  function ListKey(cats: map<int, Category>, i: Item): seq<int> {
    var joined := i.categoryId.Some? && i.categoryId.value in cats;
    [ if i.checked == 1 then 1 else 0,
      if joined then 1 else 0,
      if joined then cats[i.categoryId.value].sortOrder else 0,
      i.position, i.createdAt, i.id ]
  }

  function ListOrder(cats: map<int, Category>): Item -> seq<int> {
    (i: Item) => ListKey(cats, i)
  }

  predicate Joined(cats: map<int, Category>, i: Item) {
    i.categoryId.Some? && i.categoryId.value in cats
  }

  /** `GET /api/items`: every item, in the shopping-list order. */
  method ListItems(db: Database) returns (r: seq<Item>)
    requires db.Valid()
    ensures Ordering.Ordered(r, ListOrder(db.categories))
    ensures |r| == |db.items|
    ensures forall i :: i in r <==> i in db.items.Values
  {
    Ordering.KeyEndsInId(db.items, ListOrder(db.categories));
    r := Ordering.SortedValues(db.items, ListOrder(db.categories));
  }

  /** In the listing every unchecked item comes before every checked one. */
  lemma ListedUncheckedFirst(cats: map<int, Category>, r: seq<Item>, i: int, j: int)
    requires Ordering.Ordered(r, ListOrder(cats)) && 0 <= i < j < |r|
    requires r[i].checked == 1
    ensures r[j].checked == 1
  {
    assert Ordering.LexLess(ListKey(cats, r[i]), ListKey(cats, r[j]));
  }

  /**
   * Among items of the same checked state, uncategorised ones come first, and items of
   * categories come in ascending category sort order.
   */
  lemma ListedByCategory(cats: map<int, Category>, r: seq<Item>, i: int, j: int)
    requires Ordering.Ordered(r, ListOrder(cats)) && 0 <= i < j < |r|
    requires (r[i].checked == 1) == (r[j].checked == 1)
    ensures Joined(cats, r[i]) ==> Joined(cats, r[j])
    ensures Joined(cats, r[i]) ==> cats[r[i].categoryId.value].sortOrder <= cats[r[j].categoryId.value].sortOrder
  {
    var a, b := ListKey(cats, r[i]), ListKey(cats, r[j]);
    assert Ordering.LexLess(a, b);
    assert a[0] == b[0];
    assert Ordering.LexLess(a[1..], b[1..]);
    if a[1] == b[1] {
      assert Ordering.LexLess(a[2..], b[2..]);
    }
  }

  /** Within one category and checked state, items come by ascending list position. */
  lemma ListedByPosition(cats: map<int, Category>, r: seq<Item>, i: int, j: int)
    requires Ordering.Ordered(r, ListOrder(cats)) && 0 <= i < j < |r|
    requires (r[i].checked == 1) == (r[j].checked == 1)
    requires r[i].categoryId == r[j].categoryId
    ensures r[i].position <= r[j].position
  {
    var a, b := ListKey(cats, r[i]), ListKey(cats, r[j]);
    assert Ordering.LexLess(a, b);
    assert a[..3] == b[..3];
    assert Ordering.LexLess(a[1..], b[1..]);
    assert Ordering.LexLess(a[2..], b[2..]);
    assert Ordering.LexLess(a[3..], b[3..]);
  }

  /** The fields of an item request body. */
  datatype ItemInput = ItemInput(name: Option<string>, description: Option<string>,
                                 amount: Option<string>, categoryId: Option<int>)

  /** `!name || name.trim().length === 0` */
  predicate MissingName(body: ItemInput) {
    body.name.None? || Text.IsBlank(body.name.value)
  }

  function Positions(m: map<int, Item>): set<int> {
    Column(m, ItemPosition)
  }

  /**
   * The category a new item gets: the requested one when it is truthy, else the category
   * learned for the item's name, if any.
   */
  function FinalCategory(mappings: map<string, Mapping>, body: ItemInput): (r: Option<int>)
    requires body.name.Some?
    ensures Truthy(body.categoryId) ==> r == body.categoryId
    ensures !Truthy(body.categoryId) ==>
      r == Categorization.Suggestion(mappings, Text.Normalize(body.name.value))
  {
    if Truthy(body.categoryId) then body.categoryId
    else Categorization.Suggestion(mappings, Text.Normalize(body.name.value))
  }

  /**
   * `POST /api/items`: a blank name is refused with 400. Otherwise the item is stored with
   * its trimmed texts, at the end of the list, unchecked, in the final category (see
   * `FinalCategory`), and a truthy final category is learned for its name.
   */
  method CreateItem(db: Database, body: ItemInput, now: int) returns (r: Reply<Item>)
    requires db.Valid()
    modifies db`items, db`nextItemId, db`mappings
    ensures db.Valid()
    ensures r.Failure? <==> MissingName(body)
    ensures r.Failure? ==>
      && r.status == 400
      && db.items == old(db.items) && db.nextItemId == old(db.nextItemId) && db.mappings == old(db.mappings)
    ensures r.Success? ==>
      var final := FinalCategory(old(db.mappings), body);
      var it := r.body;
      && r.status == 201
      && it.id == old(db.nextItemId)
      && db.items == old(db.items)[it.id := it]
      && it.name == Text.Trim(body.name.value)
      && it.description == TrimOrNull(body.description)
      && it.amount == TrimOrNull(body.amount)
      && it.categoryId == OrNull(final)
      && it.checked == 0 && it.createdAt == now && it.updatedAt == now
      && (forall k :: k in old(db.items) ==> old(db.items)[k].position < it.position)
      && (it.position - 1 in Positions(old(db.items)) || (old(db.items) == map[] && it.position == 1))
      && db.mappings == (if Truthy(final)
                         then Categorization.Learned(old(db.mappings), Text.Normalize(body.name.value), final.value, now)
                         else old(db.mappings))
  {
    if MissingName(body) {
      return Failure(400, "Item name is required");
    }
    var name := body.name.value;
    var finalCategoryId := body.categoryId;
    if !Truthy(finalCategoryId) {
      finalCategoryId := Categorization.GetSuggestedCategory(db, name);
    }
    var nextPosition := NextAfterMax(db.items, ItemPosition);
    var row := Item(db.nextItemId, Text.Trim(name), TrimOrNull(body.description), TrimOrNull(body.amount),
                    OrNull(finalCategoryId), 0, nextPosition, now, now);
    assert row.id !in db.items;
    db.items := db.items[row.id := row];
    db.nextItemId := db.nextItemId + 1;
    if Truthy(finalCategoryId) {
      Categorization.LearnCategoryMapping(db, name, finalCategoryId.value, now);
    }
    r := Success(201, row);
  }

  /**
   * `PUT /api/items/:id`: 400 for a blank name, 404 for an unknown id. Otherwise the texts
   * and the category (exactly as requested, a falsy one clears it) are replaced and the edit
   * time set; a truthy requested category is learned for the name.
   */
  method UpdateItem(db: Database, id: int, body: ItemInput, now: int) returns (r: Reply<Item>)
    requires db.Valid()
    modifies db`items, db`mappings
    ensures db.Valid()
    ensures r.Failure? ==> db.items == old(db.items) && db.mappings == old(db.mappings)
    ensures r.Failure? && r.status == 400 <==> MissingName(body)
    ensures r.Failure? && r.status == 404 <==> !MissingName(body) && id !in old(db.items)
    ensures r.Success? <==> !MissingName(body) && id in old(db.items)
    ensures r.Success? ==>
      var it := r.body;
      && r.status == 200 && id in old(db.items)
      && db.items == old(db.items)[id := it]
      && it.id == id
      && it.name == Text.Trim(body.name.value)
      && it.description == TrimOrNull(body.description)
      && it.amount == TrimOrNull(body.amount)
      && it.categoryId == OrNull(body.categoryId)
      && it.updatedAt == now
      && it.checked == old(db.items)[id].checked
      && it.position == old(db.items)[id].position
      && it.createdAt == old(db.items)[id].createdAt
      && db.mappings == (if Truthy(body.categoryId)
                         then Categorization.Learned(old(db.mappings), Text.Normalize(body.name.value), body.categoryId.value, now)
                         else old(db.mappings))
  {
    if MissingName(body) {
      return Failure(400, "Item name is required");
    }
    if id !in db.items {
      return Failure(404, "Item not found");
    }
    var name := body.name.value;
    var row := db.items[id].(name := Text.Trim(name), description := TrimOrNull(body.description),
                             amount := TrimOrNull(body.amount), categoryId := OrNull(body.categoryId),
                             updatedAt := now);
    db.items := db.items[id := row];
    if Truthy(body.categoryId) {
      Categorization.LearnCategoryMapping(db, name, body.categoryId.value, now);
    }
    r := Success(200, row);
  }

  /**
   * `PATCH /api/items/:id/check`: 400 unless `checked` is a boolean, 404 for an unknown id;
   * otherwise only the flag (1 or 0) and the edit time of that item change.
   */
  method CheckItem(db: Database, id: int, checked: Json, now: int) returns (r: Reply<Item>)
    requires db.Valid()
    modifies db`items
    ensures db.Valid()
    ensures r.Failure? ==> db.items == old(db.items)
    ensures r.Failure? && r.status == 400 <==> !checked.JBool?
    ensures r.Failure? && r.status == 404 <==> checked.JBool? && id !in old(db.items)
    ensures r.Success? <==> checked.JBool? && id in old(db.items)
    ensures r.Success? ==>
      && r.status == 200 && checked.JBool? && id in old(db.items)
      && r.body == old(db.items)[id].(checked := if checked.b then 1 else 0, updatedAt := now)
      && db.items == old(db.items)[id := r.body]
      && (IsChecked(r.body) <==> checked.b)
  {
    if !checked.JBool? {
      return Failure(400, "checked must be a boolean");
    }
    if id !in db.items {
      return Failure(404, "Item not found");
    }
    var row := db.items[id].(checked := if checked.b then 1 else 0, updatedAt := now);
    db.items := db.items[id := row];
    r := Success(200, row);
  }

  /** The keys of the rows `WHERE checked = 1`. */
  function CheckedKeys(m: map<int, Item>): set<int> {
    set k | k in m && m[k].checked == 1
  }

  lemma CheckedKeysSplit(m: map<int, Item>)
    ensures |CheckedKeys(m)| + |map k | k in m && m[k].checked != 1 :: m[k]| == |m|
  {
    var kept := map k | k in m && m[k].checked != 1 :: m[k];
    assert kept.Keys == m.Keys - CheckedKeys(m);
    assert CheckedKeys(m) <= m.Keys;
    assert |m.Keys - CheckedKeys(m)| == |m.Keys| - |CheckedKeys(m)|;
  }

  /**
   * `DELETE /api/items/checked`: the checked rows go, every other row stays as it was, and the
   * reply counts the deleted rows.
   */
  method DeleteCheckedItems(db: Database) returns (deletedCount: nat)
    requires db.Valid()
    modifies db`items
    ensures db.Valid()
    ensures forall k :: k in db.items <==> k in old(db.items) && old(db.items)[k].checked != 1
    ensures forall k :: k in db.items ==> db.items[k] == old(db.items)[k]
    ensures deletedCount == |CheckedKeys(old(db.items))|
    ensures deletedCount + |db.items| == |old(db.items)|
  {
    CheckedKeysSplit(db.items);
    deletedCount := |CheckedKeys(db.items)|;
    db.items := map k | k in db.items && db.items[k].checked != 1 :: db.items[k];
  }

  /** `DELETE /api/items/:id`: 404 for an unknown id, else that row alone goes (204). */
  method DeleteItem(db: Database, id: int) returns (r: Reply<()>)
    requires db.Valid()
    modifies db`items
    ensures db.Valid()
    ensures r.Success? <==> id in old(db.items)
    ensures r.Failure? ==> r.status == 404 && db.items == old(db.items)
    ensures r.Success? ==> r.status == 204 && db.items == old(db.items) - {id}
  {
    if id !in db.items {
      return Failure(404, "Item not found");
    }
    RemoveRow(db.items, ItemId, db.nextItemId, id);
    db.items := db.items - {id};
    r := Success(204, ());
  }
}
