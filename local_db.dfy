/**
 * The client's persistent cache (frontend/src/services/db.js): three object stores keyed by
 * record id and a sync queue whose keys come from an auto-increment generator. The stores
 * are maps from id to record; the queue is the sequence of its entries in key order.
 */
module LocalDb {
  import opened Wrappers
  import opened Domain
  import Seqs
  import Ordering

  /** A queued mutation: `{ id, action, data, timestamp }`. */
  datatype QueueEntry = QueueEntry(id: int, action: string, data: Json, timestamp: int)

  /** Queue keys strictly increase along the queue, as `getAll` on a keyed store returns them. */
  ghost predicate IdsIncreasing(q: seq<QueueEntry>) {
    forall i, j :: 0 <= i < j < |q| ==> q[i].id < q[j].id
  }

  /** `store.delete(id)` on the queue: every entry with a different key stays, in order. */
  function WithoutEntry(q: seq<QueueEntry>, id: int): (r: seq<QueueEntry>)
    ensures forall i :: 0 <= i < |r| ==> r[i] in q && r[i].id != id
    ensures forall i :: 0 <= i < |q| && q[i].id != id ==> q[i] in r
  {
    if q == [] then []
    else if q[0].id == id then WithoutEntry(q[1..], id)
    else [q[0]] + WithoutEntry(q[1..], id)
  }

  /** Deleting a key that occurs nowhere in the queue leaves it as it is. */
  lemma {:induction false} WithoutAbsentEntry(q: seq<QueueEntry>, id: int)
    requires forall i :: 0 <= i < |q| ==> q[i].id != id
    ensures WithoutEntry(q, id) == q
  {
    if q != [] {
      WithoutAbsentEntry(q[1..], id);
    }
  }

  /** Deleting the head's key from a queue in key order removes exactly the head. */
  lemma WithoutHead(q: seq<QueueEntry>)
    requires q != [] && IdsIncreasing(q)
    ensures WithoutEntry(q, q[0].id) == q[1..]
  {
    WithoutAbsentEntry(q[1..], q[0].id);
  }

  /** Deletion keeps the remaining keys in increasing order. */
  lemma {:induction false} WithoutKeepsOrder(q: seq<QueueEntry>, id: int)
    requires IdsIncreasing(q)
    ensures IdsIncreasing(WithoutEntry(q, id))
  {
    if q != [] {
      WithoutKeepsOrder(q[1..], id);
      var r := WithoutEntry(q[1..], id);
      forall i | 0 <= i < |r|
        ensures q[0].id < r[i].id
      {
        assert r[i] in q[1..];
      }
    }
  }

  /**
   * Listing order of `getAll` on a keyed store. `getCategories` sorts that listing by
   * `sort_order` with a stable sort, which orders ties by id: `CategoryOrder`.
   */
  function ItemOrder(i: Item): seq<int> { [i.id] }
  function RecipeOrder(r: RecipeRecord): seq<int> { [r.id] }

  ghost predicate SelfKeyed<T>(m: map<int, T>, key: T -> int) {
    forall k :: k in m ==> key(m[k]) == k
  }

  class LocalDatabase {
    var categories: map<int, Category>
    var items: map<int, Item>
    var recipes: map<int, RecipeRecord>
    var syncQueue: seq<QueueEntry>
    /** The next key the queue's auto-increment generator hands out; clearing the store keeps it. */
    var nextQueueId: int

    ghost predicate Valid()
      reads this
    {
      && SelfKeyed(categories, CategoryId)
      && SelfKeyed(items, ItemId)
      && SelfKeyed(recipes, RecipeId)
      && IdsIncreasing(syncQueue)
      && nextQueueId >= 1
      && (forall i :: 0 <= i < |syncQueue| ==> 1 <= syncQueue[i].id < nextQueueId)
    }

    /** A freshly created database: empty stores, key generator at 1. */
    constructor ()
      ensures Valid()
      ensures categories == map[] && items == map[] && recipes == map[]
      ensures syncQueue == [] && nextQueueId == 1
    {
      categories, items, recipes := map[], map[], map[];
      syncQueue, nextQueueId := [], 1;
    }

    /** `getCategories`: all stored categories, ascending by `sort_order`. */
    method GetCategories() returns (r: seq<Category>)
      requires Valid()
      ensures Ordering.Ordered(r, CategoryOrder)
      ensures |r| == |categories|
      ensures forall c :: c in r <==> c in categories.Values
    {
      r := Ordering.SortedValues(categories, CategoryOrder);
    }

    /** `getItems`: all stored items in key order. */
    method GetItems() returns (r: seq<Item>)
      requires Valid()
      ensures Ordering.Ordered(r, ItemOrder)
      ensures |r| == |items|
      ensures forall i :: i in r <==> i in items.Values
    {
      r := Ordering.SortedValues(items, ItemOrder);
    }

    /** `getRecipes`: all stored recipes in key order. */
    method GetRecipes() returns (r: seq<RecipeRecord>)
      requires Valid()
      ensures Ordering.Ordered(r, RecipeOrder)
      ensures |r| == |recipes|
      ensures forall x :: x in r <==> x in recipes.Values
    {
      r := Ordering.SortedValues(recipes, RecipeOrder);
    }

    /** `saveCategories`: clear the store, then put every given category in order. */
    method SaveCategories(cats: seq<Category>)
      requires Valid()
      modifies this`categories
      ensures Valid()
      ensures categories == Seqs.KeyedBy(cats, CategoryId)
    {
      categories := map[];
      for i := 0 to |cats|
        invariant categories == Seqs.KeyedBy(cats[..i], CategoryId)
      {
        assert cats[..i + 1][..i] == cats[..i];
        categories := categories[cats[i].id := cats[i]];
      }
      assert cats[..|cats|] == cats;
      Seqs.KeyedBySelfKeyed(cats, CategoryId);
    }

    /** `saveItems`: clear the store, then put every given item in order. */
    method SaveItems(list: seq<Item>)
      requires Valid()
      modifies this`items
      ensures Valid()
      ensures items == Seqs.KeyedBy(list, ItemId)
    {
      items := map[];
      for i := 0 to |list|
        invariant items == Seqs.KeyedBy(list[..i], ItemId)
      {
        assert list[..i + 1][..i] == list[..i];
        items := items[list[i].id := list[i]];
      }
      assert list[..|list|] == list;
      Seqs.KeyedBySelfKeyed(list, ItemId);
    }

    /** `saveItem`: put one item, replacing any item with the same id. */
    method SaveItem(item: Item)
      requires Valid()
      modifies this`items
      ensures Valid()
      ensures items == old(items)[item.id := item]
    {
      items := items[item.id := item];
    }

    /** `deleteItemLocal` */
    method DeleteItemLocal(id: int)
      requires Valid()
      modifies this`items
      ensures Valid()
      ensures items == old(items) - {id}
    {
      items := items - {id};
    }

    /** `deleteCheckedItemsLocal`: delete, one by one, every stored item whose `checked` is truthy. */
    method DeleteCheckedItemsLocal()
      requires Valid()
      modifies this`items
      ensures Valid()
      ensures items == map k | k in old(items) && !IsChecked(old(items)[k]) :: old(items)[k]
    {
      var all := items;
      var todo := all.Keys;
      while todo != {}
        invariant todo <= all.Keys
        invariant items == map k | k in all && (k in todo || !IsChecked(all[k])) :: all[k]
        decreases todo
      {
        var k := Ordering.Pick(todo);
        if IsChecked(all[k]) {
          items := items - {k};
        }
        todo := todo - {k};
      }
    }

    /** `saveRecipes`: clear the store, then put every given recipe in order. */
    method SaveRecipes(list: seq<RecipeRecord>)
      requires Valid()
      modifies this`recipes
      ensures Valid()
      ensures recipes == Seqs.KeyedBy(list, RecipeId)
    {
      recipes := map[];
      for i := 0 to |list|
        invariant recipes == Seqs.KeyedBy(list[..i], RecipeId)
      {
        assert list[..i + 1][..i] == list[..i];
        recipes := recipes[list[i].id := list[i]];
      }
      assert list[..|list|] == list;
      Seqs.KeyedBySelfKeyed(list, RecipeId);
    }

    /** `saveRecipe` */
    method SaveRecipe(recipe: RecipeRecord)
      requires Valid()
      modifies this`recipes
      ensures Valid()
      ensures recipes == old(recipes)[recipe.id := recipe]
    {
      recipes := recipes[recipe.id := recipe];
    }

    /** `deleteRecipeLocal` */
    method DeleteRecipeLocal(id: int)
      requires Valid()
      modifies this`recipes
      ensures Valid()
      ensures recipes == old(recipes) - {id}
    {
      recipes := recipes - {id};
    }

    /** `addToSyncQueue`: append the entry under a fresh key, stamped with the current time. */
    method AddToSyncQueue(action: string, data: Json, now: int)
      requires Valid()
      modifies this`syncQueue, this`nextQueueId
      ensures Valid()
      ensures syncQueue == old(syncQueue) + [QueueEntry(old(nextQueueId), action, data, now)]
      ensures nextQueueId == old(nextQueueId) + 1
    {
      syncQueue := syncQueue + [QueueEntry(nextQueueId, action, data, now)];
      nextQueueId := nextQueueId + 1;
    }

    /** `getSyncQueue`: the queued entries, oldest first. */
    method GetSyncQueue() returns (r: seq<QueueEntry>)
      requires Valid()
      ensures r == syncQueue
      ensures IdsIncreasing(r)
      ensures forall i :: 0 <= i < |r| ==> r[i].id < nextQueueId
    {
      r := syncQueue;
    }

    /** `clearSyncQueue`: the key generator is not reset. */
    method ClearSyncQueue()
      requires Valid()
      modifies this`syncQueue
      ensures Valid()
      ensures syncQueue == [] && nextQueueId == old(nextQueueId)
    {
      syncQueue := [];
    }

    /** `removeSyncEntry` */
    method RemoveSyncEntry(id: int)
      requires Valid()
      modifies this`syncQueue
      ensures Valid()
      ensures syncQueue == WithoutEntry(old(syncQueue), id)
    {
      WithoutKeepsOrder(syncQueue, id);
      syncQueue := WithoutEntry(syncQueue, id);
    }
  }

  /**
   * The queue is first-in first-out: an entry added after others gets a larger key than all
   * of them, so it is listed after them.
   */
  lemma AddedEntryComesLast(q: seq<QueueEntry>, next: int, e: QueueEntry)
    requires IdsIncreasing(q) && forall i :: 0 <= i < |q| ==> q[i].id < next
    requires e.id == next
    ensures IdsIncreasing(q + [e])
  {
  }

  /** Saving a list and reading it back yields the saved categories, sorted, when their ids are distinct. */
  lemma SavedCategoriesReadBack(cats: seq<Category>)
    requires forall i, j :: 0 <= i < j < |cats| ==> cats[i].id != cats[j].id
    ensures forall c :: c in Seqs.KeyedBy(cats, CategoryId).Values <==> c in cats
  {
    var m := Seqs.KeyedBy(cats, CategoryId);
    Seqs.KeyedBySelfKeyed(cats, CategoryId);
    forall c | c in cats
      ensures c in m.Values
    {
      var i :| 0 <= i < |cats| && cats[i] == c;
      Seqs.KeyedByLastWins(cats, CategoryId, i);
    }
    forall c | c in m.Values
      ensures c in cats
    {
      Ordering.ValueHasKey(m, c);
      var k :| k in m && m[k] == c;
    }
  }
}
