/**
 * The category endpoints (backend/src/routes/categories.js): listing by sort order, create
 * with the next sort order, an all-or-nothing reorder, rename, and delete guarded by the
 * items that still use the category.
 */
module CategoryRoutes {
  import opened Wrappers
  import opened Domain
  import Text
  import Ordering
  import opened Tables

  function SortOrderOf(c: Category): int { c.sortOrder }

  /** The sort orders in use. */
  function SortOrders(m: map<int, Category>): set<int> {
    Column(m, SortOrderOf)
  }

  /** Some item is assigned to the category. */
  predicate InUse(items: map<int, Item>, id: int) {
    exists k :: k in items && items[k].categoryId == Some(id)
  }

  /** `!name || name.trim().length === 0` for the `name` of a request body. */
  predicate MissingName(name: Option<string>) {
    name.None? || Text.IsBlank(name.value)
  }

  /** `GET /api/categories`: every category, ascending by sort order. */
  method ListCategories(db: Database) returns (r: seq<Category>)
    requires db.Valid()
    ensures Ordering.Ordered(r, CategoryOrder)
    ensures |r| == |db.categories|
    ensures forall c :: c in r <==> c in db.categories.Values
  {
    Ordering.KeyEndsInId(db.categories, CategoryOrder);
    r := Ordering.SortedValues(db.categories, CategoryOrder);
  }

  /**
   * `POST /api/categories`: a blank name is refused with 400 and a taken name with 409;
   * otherwise the trimmed name is stored with a sort order one above the largest in use
   * (1 on an empty table).
   */
  method CreateCategory(db: Database, name: Option<string>) returns (r: Reply<Category>)
    requires db.Valid()
    modifies db`categories, db`nextCategoryId
    ensures db.Valid()
    ensures r.Failure? ==> db.categories == old(db.categories) && db.nextCategoryId == old(db.nextCategoryId)
    ensures r.Failure? && r.status == 400 <==> MissingName(name)
    ensures r.Failure? && r.status == 409 <==>
      !MissingName(name) && NameTaken(old(db.categories), Text.Trim(name.value))
    ensures r.Success? <==> !MissingName(name) && !NameTaken(old(db.categories), Text.Trim(name.value))
    ensures r.Success? ==> r.status == 201
    ensures r.Success? ==>
      && r.body.id == old(db.nextCategoryId) && r.body.name == Text.Trim(name.value)
      && db.categories == old(db.categories)[r.body.id := r.body]
    ensures r.Success? ==> forall k :: k in old(db.categories) ==> old(db.categories)[k].sortOrder < r.body.sortOrder
    ensures r.Success? ==>
      r.body.sortOrder - 1 in SortOrders(old(db.categories)) || (old(db.categories) == map[] && r.body.sortOrder == 1)
  {
    if MissingName(name) {
      return Failure(400, "Category name is required");
    }
    var nextOrder := NextAfterMax(db.categories, SortOrderOf);
    var trimmed := Text.Trim(name.value);
    if NameTaken(db.categories, trimmed) {
      return Failure(409, "Category name already exists");
    }
    var row := db.InsertCategory(trimmed, nextOrder);
    r := Success(201, row);
  }

  /** Whether a reorder entry names a row and a sort order: `!cat.id || cat.sort_order === undefined` fails. */
  predicate WellFormed(e: ReorderEntry) {
    Truthy(e.id) && e.sortOrder.Some?
  }

  /** `UPDATE categories SET sort_order = ? WHERE id = ?` */
  function SetSortOrder(m: map<int, Category>, id: int, sortOrder: int): map<int, Category> {
    if id in m then m[id := m[id].(sortOrder := sortOrder)] else m
  }

  /** The table after the reorder transaction, or `None` when it aborts on a malformed entry. */
  function Reordered(m: map<int, Category>, es: seq<ReorderEntry>): Option<map<int, Category>>
    decreases |es|
  {
    if es == [] then Some(m)
    else if !WellFormed(es[0]) then None
    else Reordered(SetSortOrder(m, es[0].id.value, es[0].sortOrder.value), es[1..])
  }

  /** The transaction aborts exactly when some entry is malformed. */
  lemma {:induction false} ReorderAbortsIffMalformed(m: map<int, Category>, es: seq<ReorderEntry>)
    ensures Reordered(m, es).None? <==> exists i :: 0 <= i < |es| && !WellFormed(es[i])
  {
    if es != [] {
      if WellFormed(es[0]) {
        ReorderAbortsIffMalformed(SetSortOrder(m, es[0].id.value, es[0].sortOrder.value), es[1..]);
        if exists i :: 0 <= i < |es| && !WellFormed(es[i]) {
          var i :| 0 <= i < |es| && !WellFormed(es[i]);
          assert es[1..][i - 1] == es[i];
        }
        if exists i :: 0 <= i < |es[1..]| && !WellFormed(es[1..][i]) {
          var i :| 0 <= i < |es[1..]| && !WellFormed(es[1..][i]);
          assert es[i + 1] == es[1..][i];
        }
      } else {
        var w := 0;
        assert !WellFormed(es[w]);
      }
    }
  }

  /**
   * A reorder changes sort orders only: the same rows with the same names stay, and a row
   * no entry names keeps its sort order.
   */
  lemma {:induction false} ReorderKeepsRows(m: map<int, Category>, es: seq<ReorderEntry>)
    requires Reordered(m, es).Some?
    ensures var r := Reordered(m, es).value;
      && r.Keys == m.Keys
      && (forall k :: k in m ==> r[k].id == m[k].id && r[k].name == m[k].name)
      && (forall k :: k in m && (forall i :: 0 <= i < |es| ==> es[i].id != Some(k)) ==> r[k] == m[k])
  {
    if es != [] {
      var m1 := SetSortOrder(m, es[0].id.value, es[0].sortOrder.value);
      ReorderKeepsRows(m1, es[1..]);
      assert m1.Keys == m.Keys;
      assert Reordered(m, es) == Reordered(m1, es[1..]);
      forall k | k in m && (forall i :: 0 <= i < |es| ==> es[i].id != Some(k))
        ensures Reordered(m, es).value[k] == m[k]
      {
        assert es[0].id != Some(k);
        forall i | 0 <= i < |es[1..]|
          ensures es[1..][i].id != Some(k)
        {
          assert es[1..][i] == es[i + 1];
        }
      }
    }
  }

  /** A row named by the entries ends with the sort order of the last entry that names it. */
  lemma {:induction false} ReorderLastEntryWins(m: map<int, Category>, es: seq<ReorderEntry>, i: int)
    requires Reordered(m, es).Some? && 0 <= i < |es| && es[i].id.Some? && es[i].id.value in m
    requires forall j :: i < j < |es| ==> es[j].id != es[i].id
    ensures es[i].sortOrder.Some?
    ensures Reordered(m, es).value.Keys == m.Keys
    ensures Reordered(m, es).value[es[i].id.value].sortOrder == es[i].sortOrder.value
  {
    var m1 := SetSortOrder(m, es[0].id.value, es[0].sortOrder.value);
    if i == 0 {
      ReorderKeepsRows(m1, es[1..]);
      forall j | 0 <= j < |es[1..]|
        ensures es[1..][j].id != Some(es[0].id.value)
      {
        assert es[1..][j] == es[j + 1];
      }
    } else {
      forall j | i - 1 < j < |es[1..]|
        ensures es[1..][j].id != es[1..][i - 1].id
      {
        assert es[1..][j] == es[j + 1];
      }
      ReorderKeepsRows(m1, []);
      ReorderLastEntryWins(m1, es[1..], i - 1);
    }
  }

  lemma ReorderKeepsValid(db: Database, es: seq<ReorderEntry>)
    requires db.Valid() && Reordered(db.categories, es).Some?
    ensures KeyedRows(Reordered(db.categories, es).value, CategoryId, db.nextCategoryId)
    ensures UniqueNames(Reordered(db.categories, es).value)
  {
    ReorderKeepsRows(db.categories, es);
  }

  /**
   * `PUT /api/categories/reorder`: a body that is not an array (`None`) is refused with 400.
   * The updates run in one transaction; a malformed entry aborts it with 500 and no change.
   * Otherwise the response lists every category ascending by the new sort orders.
   */
  method ReorderCategories(db: Database, body: Option<seq<ReorderEntry>>) returns (r: Reply<seq<Category>>)
    requires db.Valid()
    modifies db`categories
    ensures db.Valid()
    ensures r.Failure? && r.status == 400 <==> body.None?
    ensures body.Some? && Reordered(old(db.categories), body.value).None? ==>
      r == Failure(500, "Failed to reorder categories") && db.categories == old(db.categories)
    ensures body.Some? && Reordered(old(db.categories), body.value).Some? ==>
      && db.categories == Reordered(old(db.categories), body.value).value
      && r.Success? && r.status == 200
      && Ordering.Ordered(r.body, CategoryOrder)
      && |r.body| == |db.categories|
      && (forall c :: c in r.body <==> c in db.categories.Values)
  {
    if body.None? {
      return Failure(400, "Request body must be an array");
    }
    var cats := body.value;
    var updated := db.categories;
    var i := 0;
    while i < |cats|
      invariant 0 <= i <= |cats|
      invariant Reordered(db.categories, cats) == Reordered(updated, cats[i..])
      decreases |cats| - i
    {
      assert cats[i..][1..] == cats[i + 1..];
      if !WellFormed(cats[i]) {
        return Failure(500, "Failed to reorder categories");
      }
      updated := SetSortOrder(updated, cats[i].id.value, cats[i].sortOrder.value);
      i := i + 1;
    }
    assert cats[i..] == [];
    ReorderKeepsValid(db, cats);
    db.categories := updated;
    var listed := ListCategories(db);
    r := Success(200, listed);
  }

  /**
   * `PUT /api/categories/:id`: 400 for a blank name, 404 for an unknown id, 409 when another
   * category has the trimmed name; otherwise only that row's name changes.
   */
  method UpdateCategory(db: Database, id: int, name: Option<string>) returns (r: Reply<Category>)
    requires db.Valid()
    modifies db`categories
    ensures db.Valid()
    ensures r.Failure? ==> db.categories == old(db.categories)
    ensures r.Failure? && r.status == 400 <==> MissingName(name)
    ensures r.Failure? && r.status == 404 <==> !MissingName(name) && id !in old(db.categories)
    ensures r.Failure? && r.status == 409 <==>
      && !MissingName(name) && id in old(db.categories)
      && NameTaken(old(db.categories) - {id}, Text.Trim(name.value))
    ensures r.Success? <==>
      && !MissingName(name) && id in old(db.categories)
      && !NameTaken(old(db.categories) - {id}, Text.Trim(name.value))
    ensures r.Success? ==>
      && r.status == 200 && id in old(db.categories)
      && r.body == old(db.categories)[id].(name := Text.Trim(name.value))
      && db.categories == old(db.categories)[id := r.body]
  {
    if MissingName(name) {
      return Failure(400, "Category name is required");
    }
    var trimmed := Text.Trim(name.value);
    if id !in db.categories {
      return Failure(404, "Category not found");
    }
    if NameTaken(db.categories - {id}, trimmed) {
      return Failure(409, "Category name already exists");
    }
    var row := db.categories[id].(name := trimmed);
    assert forall k :: k in db.categories && k != id ==> db.categories[k].name != trimmed by {
      forall k | k in db.categories && k != id
        ensures db.categories[k].name != trimmed
      {
        assert k in db.categories - {id};
      }
    }
    db.categories := db.categories[id := row];
    r := Success(200, row);
  }

  /** The items assigned to a category: `SELECT COUNT(*) FROM items WHERE category_id = ?`. */
  function ItemCount(items: map<int, Item>, id: int): nat {
    |set k | k in items && items[k].categoryId == Some(id)|
  }

  lemma ItemCountPositiveIffInUse(items: map<int, Item>, id: int)
    ensures ItemCount(items, id) > 0 <==> InUse(items, id)
  {
    var s := set k | k in items && items[k].categoryId == Some(id);
    if s != {} {
      Ordering.NonEmptyHasMember(s);
      var k :| k in s;
      assert k in items && items[k].categoryId == Some(id);
    }
    if InUse(items, id) {
      var k :| k in items && items[k].categoryId == Some(id);
      assert k in s;
    }
  }

  /**
   * `DELETE /api/categories/:id`: 409 while any item is assigned to it, else 404 when it does
   * not exist, else 204 and only that row is removed.
   */
  method DeleteCategory(db: Database, id: int) returns (r: Reply<()>)
    requires db.Valid()
    modifies db`categories
    ensures db.Valid()
    ensures r.Failure? ==> db.categories == old(db.categories)
    ensures r.Failure? && r.status == 409 <==> InUse(db.items, id)
    ensures r.Failure? && r.status == 404 <==> !InUse(db.items, id) && id !in old(db.categories)
    ensures r.Success? <==> !InUse(db.items, id) && id in old(db.categories)
    ensures r.Success? ==> r.status == 204 && db.categories == old(db.categories) - {id}
  {
    var itemCount := ItemCount(db.items, id);
    ItemCountPositiveIffInUse(db.items, id);
    if itemCount > 0 {
      return Failure(409, "Cannot delete category with items");
    }
    if id !in db.categories {
      return Failure(404, "Category not found");
    }
    RemoveRow(db.categories, CategoryId, db.nextCategoryId, id);
    RemoveKeepsUniqueNames(db.categories, id);
    db.categories := db.categories - {id};
    r := Success(204, ());
  }
}
