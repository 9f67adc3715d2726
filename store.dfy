/**
 * The client application store (frontend/src/store/useStore.js): the lists the views render
 * and the last fetch error. Every action awaits one API call, whose outcome is a parameter
 * (`Ok` with the decoded response, or `Err` with the error's message), and then rewrites the
 * lists by id.
 */
module Store {
  import opened Wrappers
  import opened Domain
  import Seqs

  /** `s.map(x => key(x) === id ? x1 : x)` */
  function ReplaceById<T>(s: seq<T>, id: int, x1: T, key: T -> int): (r: seq<T>)
    ensures |r| == |s|
    ensures forall i :: 0 <= i < |s| && key(s[i]) == id ==> r[i] == x1
    ensures forall i :: 0 <= i < |s| && key(s[i]) != id ==> r[i] == s[i]
  {
    if s == [] then []
    else [if key(s[0]) == id then x1 else s[0]] + ReplaceById(s[1..], id, x1, key)
  }

  /** `s.filter(x => key(x) !== id)` */
  function RemoveById<T(==)>(s: seq<T>, id: int, key: T -> int): (r: seq<T>)
    ensures forall i :: 0 <= i < |r| ==> key(r[i]) != id && r[i] in s
    ensures forall i :: 0 <= i < |s| && key(s[i]) != id ==> s[i] in r
    ensures Seqs.Subseq(r, s)
  {
    if s == [] then []
    else if key(s[0]) == id then
      Seqs.SubseqSkip(RemoveById(s[1..], id, key), s[0], s[1..]);
      assert [s[0]] + s[1..] == s;
      RemoveById(s[1..], id, key)
    else
      assert ([s[0]] + RemoveById(s[1..], id, key))[1..] == RemoveById(s[1..], id, key);
      [s[0]] + RemoveById(s[1..], id, key)
  }

  /** Removing an id that no element carries changes nothing. */
  lemma {:induction false} RemoveAbsentId<T>(s: seq<T>, id: int, key: T -> int)
    requires forall i :: 0 <= i < |s| ==> key(s[i]) != id
    ensures RemoveById(s, id, key) == s
  {
    if s != [] {
      RemoveAbsentId(s[1..], id, key);
    }
  }

  /** `items.map(i => i.id === id ? { ...i, checked: v } : i)` */
  function SetChecked(s: seq<Item>, id: int, v: int): (r: seq<Item>)
    ensures |r| == |s|
    ensures forall i :: 0 <= i < |s| && s[i].id == id ==> r[i] == s[i].(checked := v)
    ensures forall i :: 0 <= i < |s| && s[i].id != id ==> r[i] == s[i]
  {
    if s == [] then []
    else [if s[0].id == id then s[0].(checked := v) else s[0]] + SetChecked(s[1..], id, v)
  }

  function CheckedFlag(checked: bool): int { if checked then 1 else 0 }

  /**
   * The list after a failed toggle: the optimistic write followed by the rollback, which
   * writes the opposite of the requested value.
   */
  function ToggleRolledBack(s: seq<Item>, id: int, checked: bool): seq<Item> {
    SetChecked(SetChecked(s, id, CheckedFlag(checked)), id, CheckedFlag(!checked))
  }

  /**
   * A failed toggle puts the item back as it was exactly when it already held the opposite of
   * the requested value; toggling an item to the state it already has and failing flips it.
   * Every other item is untouched.
   */
  lemma ToggleRollbackRestoresIff(s: seq<Item>, id: int, checked: bool, i: int)
    requires 0 <= i < |s| && s[i].id == id
    ensures |ToggleRolledBack(s, id, checked)| == |s|
    ensures ToggleRolledBack(s, id, checked)[i] == s[i] <==> s[i].checked == CheckedFlag(!checked)
  {
  }

  lemma ToggleRollbackKeepsOthers(s: seq<Item>, id: int, checked: bool, i: int)
    requires 0 <= i < |s| && s[i].id != id
    ensures |ToggleRolledBack(s, id, checked)| == |s|
    ensures ToggleRolledBack(s, id, checked)[i] == s[i]
  {
  }

  /** The concrete case: re-checking an already checked item while the call fails leaves it unchecked. */
  lemma RecheckFailureUnchecks(it: Item)
    requires it.checked == 1
    ensures ToggleRolledBack([it], it.id, true) == [it.(checked := 0)]
  {
  }

  /** `reordered.map((cat, i) => ({ id: cat.id, sort_order: i + 1 }))` */
  function ReorderPayload(reordered: seq<Category>): (r: seq<ReorderEntry>)
    ensures |r| == |reordered|
    ensures forall i :: 0 <= i < |r| ==> r[i] == ReorderEntry(Some(reordered[i].id), Some(i + 1))
  {
    if reordered == [] then []
    else ReorderPayload(reordered[..|reordered| - 1]) + [ReorderEntry(Some(reordered[|reordered| - 1].id), Some(|reordered|))]
  }

  class AppStore {
    var categories: seq<Category>
    var items: seq<Item>
    var recipes: seq<RecipeRecord>
    var error: Option<string>

    constructor ()
      ensures categories == [] && items == [] && recipes == [] && error == None
    {
      categories, items, recipes, error := [], [], [], None;
    }

    /** `fetchCategories`: replace the list, or record the error and keep the list. */
    method FetchCategories(reply: Result<seq<Category>, string>)
      modifies this`categories, this`error
      ensures reply.Ok? ==> categories == reply.value && error == old(error)
      ensures reply.Err? ==> categories == old(categories) && error == Some(reply.error)
    {
      if reply.Ok? {
        categories := reply.value;
      } else {
        error := Some(reply.error);
      }
    }

    /** `createCategory`: append the created category; a failure propagates and changes nothing. */
    method CreateCategory(reply: Result<Category, string>) returns (r: Result<Category, string>)
      modifies this`categories
      ensures r == reply
      ensures reply.Ok? ==> categories == old(categories) + [reply.value]
      ensures reply.Err? ==> categories == old(categories)
    {
      r := reply;
      if reply.Ok? {
        categories := categories + [reply.value];
      }
    }

    method UpdateCategory(id: int, reply: Result<Category, string>) returns (r: Result<(), string>)
      modifies this`categories
      ensures r.Err? <==> reply.Err?
      ensures reply.Ok? ==> categories == ReplaceById(old(categories), id, reply.value, CategoryId)
      ensures reply.Err? ==> categories == old(categories)
    {
      if reply.Ok? {
        categories := ReplaceById(categories, id, reply.value, CategoryId);
        r := Ok(());
      } else {
        r := Err(reply.error);
      }
    }

    method DeleteCategory(id: int, reply: Result<(), string>) returns (r: Result<(), string>)
      modifies this`categories
      ensures r == reply
      ensures reply.Ok? ==> categories == RemoveById(old(categories), id, CategoryId)
      ensures reply.Err? ==> categories == old(categories)
    {
      r := reply;
      if reply.Ok? {
        categories := RemoveById(categories, id, CategoryId);
      }
    }

    /** `reorderCategories`: send dense 1-based sort orders in the given order, then take the server's list. */
    method ReorderCategories(reordered: seq<Category>, reply: seq<ReorderEntry> -> Result<seq<Category>, string>)
      returns (sent: seq<ReorderEntry>, r: Result<(), string>)
      modifies this`categories
      ensures sent == ReorderPayload(reordered)
      ensures r.Err? <==> reply(sent).Err?
      ensures reply(sent).Ok? ==> categories == reply(sent).value
      ensures reply(sent).Err? ==> categories == old(categories)
    {
      sent := ReorderPayload(reordered);
      var answer := reply(sent);
      if answer.Ok? {
        categories := answer.value;
        r := Ok(());
      } else {
        r := Err(answer.error);
      }
    }

    method FetchItems(reply: Result<seq<Item>, string>)
      modifies this`items, this`error
      ensures reply.Ok? ==> items == reply.value && error == old(error)
      ensures reply.Err? ==> items == old(items) && error == Some(reply.error)
    {
      if reply.Ok? {
        items := reply.value;
      } else {
        error := Some(reply.error);
      }
    }

    method CreateItem(reply: Result<Item, string>) returns (r: Result<Item, string>)
      modifies this`items
      ensures r == reply
      ensures reply.Ok? ==> items == old(items) + [reply.value]
      ensures reply.Err? ==> items == old(items)
    {
      r := reply;
      if reply.Ok? {
        items := items + [reply.value];
      }
    }

    method UpdateItem(id: int, reply: Result<Item, string>) returns (r: Result<(), string>)
      modifies this`items
      ensures r.Err? <==> reply.Err?
      ensures reply.Ok? ==> items == ReplaceById(old(items), id, reply.value, ItemId)
      ensures reply.Err? ==> items == old(items)
    {
      if reply.Ok? {
        items := ReplaceById(items, id, reply.value, ItemId);
        r := Ok(());
      } else {
        r := Err(reply.error);
      }
    }

    /**
     * `toggleItemCheck`: write the requested flag before the call; on failure write the
     * opposite of the requested flag, and swallow the error.
     */
    method ToggleItemCheck(id: int, checked: bool, reply: Result<(), string>)
      modifies this`items
      ensures reply.Ok? ==> items == SetChecked(old(items), id, CheckedFlag(checked))
      ensures reply.Err? ==> items == ToggleRolledBack(old(items), id, checked)
    {
      items := SetChecked(items, id, CheckedFlag(checked));
      if reply.Err? {
        items := SetChecked(items, id, CheckedFlag(!checked));
      }
    }

    method DeleteItem(id: int, reply: Result<(), string>) returns (r: Result<(), string>)
      modifies this`items
      ensures r == reply
      ensures reply.Ok? ==> items == RemoveById(old(items), id, ItemId)
      ensures reply.Err? ==> items == old(items)
    {
      r := reply;
      if reply.Ok? {
        items := RemoveById(items, id, ItemId);
      }
    }

    /** `deleteCheckedItems`: keep exactly the unchecked items, in order. */
    method DeleteCheckedItems(reply: Result<(), string>) returns (r: Result<(), string>)
      modifies this`items
      ensures r == reply
      ensures reply.Ok? ==> items == Seqs.Filter(old(items), IsUnchecked)
      ensures reply.Err? ==> items == old(items)
    {
      r := reply;
      if reply.Ok? {
        items := Seqs.Filter(items, IsUnchecked);
      }
    }

    method FetchRecipes(reply: Result<seq<RecipeRecord>, string>)
      modifies this`recipes, this`error
      ensures reply.Ok? ==> recipes == reply.value && error == old(error)
      ensures reply.Err? ==> recipes == old(recipes) && error == Some(reply.error)
    {
      if reply.Ok? {
        recipes := reply.value;
      } else {
        error := Some(reply.error);
      }
    }

    method CreateRecipe(reply: Result<RecipeRecord, string>) returns (r: Result<RecipeRecord, string>)
      modifies this`recipes
      ensures r == reply
      ensures reply.Ok? ==> recipes == old(recipes) + [reply.value]
      ensures reply.Err? ==> recipes == old(recipes)
    {
      r := reply;
      if reply.Ok? {
        recipes := recipes + [reply.value];
      }
    }

    method UpdateRecipe(id: int, reply: Result<RecipeRecord, string>) returns (r: Result<(), string>)
      modifies this`recipes
      ensures r.Err? <==> reply.Err?
      ensures reply.Ok? ==> recipes == ReplaceById(old(recipes), id, reply.value, RecipeId)
      ensures reply.Err? ==> recipes == old(recipes)
    {
      if reply.Ok? {
        recipes := ReplaceById(recipes, id, reply.value, RecipeId);
        r := Ok(());
      } else {
        r := Err(reply.error);
      }
    }

    method DeleteRecipe(id: int, reply: Result<(), string>) returns (r: Result<(), string>)
      modifies this`recipes
      ensures r == reply
      ensures reply.Ok? ==> recipes == RemoveById(old(recipes), id, RecipeId)
      ensures reply.Err? ==> recipes == old(recipes)
    {
      r := reply;
      if reply.Ok? {
        recipes := RemoveById(recipes, id, RecipeId);
      }
    }

    /** `addRecipeToList`: append the created items after the existing ones, in the server's order. */
    method AddRecipeToList(id: int, reply: Result<seq<Item>, string>) returns (r: Result<seq<Item>, string>)
      modifies this`items
      ensures r == reply
      ensures reply.Ok? ==> items == old(items) + reply.value
      ensures reply.Err? ==> items == old(items)
    {
      r := reply;
      if reply.Ok? {
        items := items + reply.value;
      }
    }

    method ClearError()
      modifies this`error
      ensures error == None
    {
      error := None;
    }
  }
}
