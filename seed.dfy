/** First-run seeding of the category table (backend/src/db/seed.js). */
module Seed {
  import opened Domain
  import opened Tables

  /** A default category: its name and sort order. */
  datatype Default = Default(name: string, sortOrder: int)

  const Defaults: seq<Default> := [
    Default("Fruit & Vegetables", 1),
    Default("Meat & Seafood", 2),
    Default("Bakery", 3),
    Default("Pantry", 4),
    Default("Beverages", 5),
    Default("Snacks", 6),
    Default("Household Items", 7),
    Default("Dairy & Eggs", 8),
    Default("Frozen Foods", 9),
    Default("Other", 10)
  ]

  /** Ten defaults, with sort orders 1 to 10 in list order and no name twice. */
  lemma DefaultsWellFormed()
    ensures |Defaults| == 10
    ensures forall i :: 0 <= i < |Defaults| ==> Defaults[i].sortOrder == i + 1
    ensures forall i, j :: 0 <= i < j < |Defaults| ==> Defaults[i].name != Defaults[j].name
  {
    forall i, j | 0 <= i < j < |Defaults|
      ensures Defaults[i].name != Defaults[j].name
    {
      var a, b := Defaults[i].name, Defaults[j].name;
      if a[0] == b[0] {
        assert a[2] != b[2];
      }
    }
  }

  /**
   * `seedCategories`: an empty table receives the ten defaults, in order, under consecutive
   * ids; a table with any row is left alone.
   */
  method SeedCategories(db: Database)
    requires db.Valid()
    modifies db`categories, db`nextCategoryId
    ensures db.Valid()
    ensures |old(db.categories)| != 0 ==>
      db.categories == old(db.categories) && db.nextCategoryId == old(db.nextCategoryId)
    ensures |old(db.categories)| == 0 ==>
      && old(db.nextCategoryId) in db.categories
      && db.nextCategoryId == old(db.nextCategoryId) + |Defaults|
      && (forall k :: k in db.categories <==> old(db.nextCategoryId) <= k < db.nextCategoryId)
      && (forall i :: 0 <= i < |Defaults| ==>
            db.categories[old(db.nextCategoryId) + i]
              == Category(old(db.nextCategoryId) + i, Defaults[i].name, Defaults[i].sortOrder))
  {
    var count := |db.categories|;
    if count != 0 {
      return;
    }
    DefaultsWellFormed();
    InsertDefaults(db, Defaults);
  }

  /** The insert loop of `seedCategories`: `ds`, named apart, go into an empty table in order. */
  method InsertDefaults(db: Database, ds: seq<Default>)
    requires db.Valid() && db.categories == map[]
    requires forall i, j :: 0 <= i < j < |ds| ==> ds[i].name != ds[j].name
    modifies db`categories, db`nextCategoryId
    ensures db.Valid()
    ensures db.nextCategoryId == old(db.nextCategoryId) + |ds|
    ensures forall k :: k in db.categories <==> old(db.nextCategoryId) <= k < db.nextCategoryId
    ensures forall i :: 0 <= i < |ds| ==>
      db.categories[old(db.nextCategoryId) + i] == Category(old(db.nextCategoryId) + i, ds[i].name, ds[i].sortOrder)
  {
    ghost var first := db.nextCategoryId;
    for i := 0 to |ds|
      invariant db.Valid()
      invariant db.nextCategoryId == first + i
      invariant forall k :: k in db.categories <==> first <= k < db.nextCategoryId
      invariant forall j :: 0 <= j < i ==>
        db.categories[first + j] == Category(first + j, ds[j].name, ds[j].sortOrder)
    {
      var d := ds[i];
      forall k | k in db.categories
        ensures db.categories[k].name != d.name
      {
        var j := k - first;
        assert db.categories[first + j].name == ds[j].name;
      }
      var _ := db.InsertCategory(d.name, d.sortOrder);
    }
  }
}
