/**
 * Learned item-name to category mappings (backend/src/services/categorization.js). Names are
 * looked up by their normalised form (lower case, outer white space removed), so names that
 * differ only in case or outer spacing share one mapping.
 */
module Categorization {
  import opened Wrappers
  import opened Text
  import opened Tables

  /** The row the table holds for a lookup key, as a suggested category. */
  function Suggestion(m: map<string, Mapping>, key: string): (r: Option<int>)
    ensures r.Some? <==> key in m
    ensures r.Some? ==> r.value == m[key].categoryId
  {
    if key in m then Some(m[key].categoryId) else None
  }

  /** The mapping table after `learnCategoryMapping` of a name with lookup key `key`, at time `now`. */
  function Learned(m: map<string, Mapping>, key: string, categoryId: int, now: int): map<string, Mapping> {
    if key in m then m[key := Mapping(categoryId, m[key].useCount + 1, now)]
    else m[key := Mapping(categoryId, 1, now)]
  }

  /** The mapping table after `updateMappingUsage` of a name with lookup key `key`, at time `now`. */
  function UsageUpdated(m: map<string, Mapping>, key: string, now: int): map<string, Mapping> {
    if key in m then m[key := m[key].(useCount := m[key].useCount + 1, lastUsed := now)] else m
  }

  /**
   * A mapping `cleanupOldMappings` is meant to remove: used once, and last used before the
   * cutoff.
   */
  predicate Stale(x: Mapping, cutoff: int) {
    x.useCount == 1 && x.lastUsed < cutoff
  }

  /** Times are whole seconds since the epoch, in UTC. */
  const SecondsPerDay := 86400

  /** The calendar day, counted from the epoch, that a time falls on. */
  function Day(t: int): (r: int)
    ensures r * SecondsPerDay <= t < (r + 1) * SecondsPerDay
  {
    t / SecondsPerDay
  }

  /**
   * A mapping `cleanupOldMappings` removes as written. The query compares `last_used`, stored
   * by SQLite's `CURRENT_TIMESTAMP` as the text `YYYY-MM-DD HH:MM:SS`, with the text of
   * `toISOString()`, `YYYY-MM-DDTHH:MM:SS.sssZ`. The date parts order as dates; where they
   * agree, the space after the stored date sorts below `T`, so the stored text is the smaller
   * whatever the time of day. A row used once is therefore removed when it was last used on or
   * before the cutoff's day.
   */
  predicate StaleAsWritten(x: Mapping, cutoff: int) {
    x.useCount == 1 && Day(x.lastUsed) <= Day(cutoff)
  }

  /**
   * The text comparison removes every row the intended one does, and the only extra rows it
   * removes were used once, at or after the cutoff but on the cutoff's own day.
   */
  lemma StaleAsWrittenWidensStale(x: Mapping, cutoff: int)
    ensures Stale(x, cutoff) ==> StaleAsWritten(x, cutoff)
    ensures StaleAsWritten(x, cutoff) && !Stale(x, cutoff) ==>
      x.useCount == 1 && cutoff <= x.lastUsed && Day(x.lastUsed) == Day(cutoff)
  {
    var d, e := Day(x.lastUsed), Day(cutoff);
    if x.lastUsed < cutoff {
      assert d * SecondsPerDay < (e + 1) * SecondsPerDay;
    } else {
      assert e * SecondsPerDay < (d + 1) * SecondsPerDay;
    }
  }

  /** The mapping table after the cleanup as written. */
  function KeptAsWritten(m: map<string, Mapping>, cutoff: int): (r: map<string, Mapping>)
    ensures forall k :: k in r ==> k in m && r[k] == m[k]
    ensures forall k :: k in m ==> (k in r <==> m[k].useCount != 1 || Day(cutoff) < Day(m[k].lastUsed))
  {
    map k | k in m && !StaleAsWritten(m[k], cutoff) :: m[k]
  }

  /**
   * The mapping table after the cleanup as intended: a mapping used more than once, or last
   * used at or after the cutoff, is kept unchanged, and every other mapping is removed.
   */
  function WithoutStale(m: map<string, Mapping>, cutoff: int): (r: map<string, Mapping>)
    ensures forall k :: k in r ==> k in m && r[k] == m[k]
    ensures forall k :: k in m ==> (k in r <==> m[k].useCount != 1 || cutoff <= m[k].lastUsed)
  {
    map k | k in m && !Stale(m[k], cutoff) :: m[k]
  }

  /**
   * The cleanup as written keeps a subset of what the intended one keeps; the rows it loses
   * besides were used once, at or after the cutoff, on the cutoff's day.
   */
  lemma {:induction false} CleanupAsWrittenWithinIntended(m: map<string, Mapping>, cutoff: int)
    ensures KeptAsWritten(m, cutoff).Keys <= WithoutStale(m, cutoff).Keys
    ensures forall k :: k in WithoutStale(m, cutoff) && k !in KeptAsWritten(m, cutoff) ==>
      m[k].useCount == 1 && cutoff <= m[k].lastUsed && Day(m[k].lastUsed) == Day(cutoff)
  {
    forall k | k in m {
      StaleAsWrittenWidensStale(m[k], cutoff);
    }
  }

  /**
   * The discrepancy on a concrete table: a mapping used once at 02:00 is removed by a cleanup
   * whose cutoff is 01:00 of the same day, although it was used after the cutoff.
   */
  lemma CleanupRemovesRowUsedAfterCutoff()
    ensures var m := map["milk" := Mapping(3, 1, 2 * 3600)];
      && KeptAsWritten(m, 3600) == map[]
      && WithoutStale(m, 3600) == m
  {
    var m := map["milk" := Mapping(3, 1, 2 * 3600)];
    assert Day(2 * 3600) == Day(3600) == 0;
    assert "milk" !in KeptAsWritten(m, 3600);
    assert KeptAsWritten(m, 3600).Keys == {};
  }

  /**
   * Names that differ only in case or outer white space share a lookup key, and hence one
   * mapping; the key of a key is itself.
   */
  lemma SpellingsShareKey(s: string)
    ensures Normalize(Trim(s)) == Normalize(s)
    ensures Normalize(Lower(s)) == Normalize(s)
    ensures Normalize(Normalize(s)) == Normalize(s)
  {
    NormalizeIgnoresCaseAndOuterSpace(s);
  }

  /** After learning a key, it suggests the learned category. */
  lemma LearnThenSuggest(m: map<string, Mapping>, key: string, categoryId: int, now: int)
    ensures Suggestion(Learned(m, key, categoryId, now), key) == Some(categoryId)
  {
  }

  /** Learning a key leaves every other key's suggestion as it was. */
  lemma LearnLeavesOthers(m: map<string, Mapping>, key: string, categoryId: int, now: int, other: string)
    requires other != key
    ensures Suggestion(Learned(m, key, categoryId, now), other) == Suggestion(m, other)
  {
  }

  /**
   * Learning an existing key overwrites its category and counts one more use; learning a new
   * key adds exactly one row with a single use. Other rows are unchanged.
   */
  lemma LearnCounts(m: map<string, Mapping>, key: string, categoryId: int, now: int)
    ensures var r := Learned(m, key, categoryId, now);
      && r.Keys == m.Keys + {key}
      && r[key].categoryId == categoryId && r[key].lastUsed == now
      && r[key].useCount == (if key in m then m[key].useCount + 1 else 1)
      && forall k :: k in m && k != key ==> r[k] == m[k]
  {
  }

  /** `updateMappingUsage` never adds a row and never changes a category; it counts a use of an existing row only. */
  lemma UsageUpdateOnlyCounts(m: map<string, Mapping>, key: string, now: int)
    ensures var r := UsageUpdated(m, key, now);
      && r.Keys == m.Keys
      && (forall k :: k in m ==> r[k].categoryId == m[k].categoryId)
      && (forall k :: k in m ==> r[k].useCount == m[k].useCount + (if k == key then 1 else 0))
      && Suggestion(r, key) == Suggestion(m, key)
  {
  }

  /** Every key of the table is a normalised name. */
  ghost predicate NormalisedKeys(m: map<string, Mapping>) {
    forall k :: k in m ==> Normalize(k) == k
  }

  /** Since keys are always computed by `Normalize`, the table holds at most one row per name. */
  lemma LearnKeepsKeysNormalised(m: map<string, Mapping>, itemName: string, categoryId: int, now: int)
    requires NormalisedKeys(m)
    ensures NormalisedKeys(Learned(m, Normalize(itemName), categoryId, now))
  {
    NormalizeIgnoresCaseAndOuterSpace(itemName);
  }

  /** `getSuggestedCategory`: a read-only lookup. */
  method GetSuggestedCategory(db: Database, itemName: string) returns (r: Option<int>)
    ensures r == Suggestion(db.mappings, Normalize(itemName))
  {
    var key := Normalize(itemName);
    if key in db.mappings {
      r := Some(db.mappings[key].categoryId);
    } else {
      r := None;
    }
  }

  /** `learnCategoryMapping`: update the existing row, or insert one. */
  method LearnCategoryMapping(db: Database, itemName: string, categoryId: int, now: int)
    requires db.Valid()
    modifies db`mappings
    ensures db.Valid()
    ensures db.mappings == Learned(old(db.mappings), Normalize(itemName), categoryId, now)
  {
    var key := Normalize(itemName);
    if key in db.mappings {
      db.mappings := db.mappings[key := Mapping(categoryId, db.mappings[key].useCount + 1, now)];
    } else {
      db.mappings := db.mappings[key := Mapping(categoryId, 1, now)];
    }
  }

  /** `updateMappingUsage` */
  method UpdateMappingUsage(db: Database, itemName: string, now: int)
    requires db.Valid()
    modifies db`mappings
    ensures db.Valid()
    ensures db.mappings == UsageUpdated(old(db.mappings), Normalize(itemName), now)
  {
    var key := Normalize(itemName);
    if key in db.mappings {
      db.mappings := db.mappings[key := db.mappings[key].(useCount := db.mappings[key].useCount + 1, lastUsed := now)];
    }
  }

  /**
   * `cleanupOldMappings` as written, with the cutoff six months before now passed in: delete
   * the rows the text comparison finds stale and report how many there were.
   */
  method CleanupOldMappings(db: Database, cutoff: int) returns (changes: int)
    requires db.Valid()
    modifies db`mappings
    ensures db.Valid()
    ensures db.mappings == KeptAsWritten(old(db.mappings), cutoff)
    ensures changes == |set k | k in old(db.mappings) && StaleAsWritten(old(db.mappings)[k], cutoff)|
  {
    var stale := set k | k in db.mappings && StaleAsWritten(db.mappings[k], cutoff);
    db.mappings := map k | k in db.mappings && k !in stale :: db.mappings[k];
    changes := |stale|;
  }
}
