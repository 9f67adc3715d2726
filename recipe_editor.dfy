/**
 * The recipe editor screen (frontend/src/components/Recipes/RecipeEditorView.jsx): a draft
 * name and ingredient list edited in place, loaded from a stored recipe, and turned into the
 * create or update request body on save.
 */
module RecipeEditor {
  import opened Wrappers
  import opened Domain
  import Text
  import Seqs
  import RecipeRoutes

  /**
   * An ingredient row of the form. The category select holds `''` (`None`) or a category
   * id; the text inputs hold strings.
   */
  datatype Draft = Draft(name: string, amount: string, categoryId: Option<int>)

  const EmptyDraft := Draft("", "", None)

  /** One `updateIngredient(index, field, value)` call: the field and its new value. */
  datatype Edit = SetName(name: string) | SetAmount(amount: string) | SetCategory(categoryId: Option<int>)

  function Apply(d: Draft, e: Edit): Draft {
    match e
    case SetName(v) => d.(name := v)
    case SetAmount(v) => d.(amount := v)
    case SetCategory(v) => d.(categoryId := v)
  }

  /** `ingredients.map((ing, i) => i === index ? { ...ing, [field]: value } : ing)` */
  function Edited(ds: seq<Draft>, index: int, e: Edit): (r: seq<Draft>)
    ensures |r| == |ds|
  {
    seq(|ds|, i requires 0 <= i < |ds| => if i == index then Apply(ds[i], e) else ds[i])
  }

  /** Only the edited field of the edited row changes; an index out of range changes nothing. */
  lemma EditChangesOneField(ds: seq<Draft>, index: int, e: Edit)
    ensures var r := Edited(ds, index, e);
      && |r| == |ds|
      && (forall j :: 0 <= j < |ds| && j != index ==> r[j] == ds[j])
      && (!(0 <= index < |ds|) ==> r == ds)
      && (0 <= index < |ds| ==>
            match e
            case SetName(v) => r[index].name == v && r[index].amount == ds[index].amount && r[index].categoryId == ds[index].categoryId
            case SetAmount(v) => r[index].amount == v && r[index].name == ds[index].name && r[index].categoryId == ds[index].categoryId
            case SetCategory(v) => r[index].categoryId == v && r[index].name == ds[index].name && r[index].amount == ds[index].amount)
  {
  }

  /** `ingredients.filter((_, i) => i !== index)` */
  function RemovedAt(ds: seq<Draft>, index: int): (r: seq<Draft>)
    ensures 0 <= index < |ds| ==> |r| == |ds| - 1
    ensures !(0 <= index < |ds|) ==> r == ds
  {
    if 0 <= index < |ds| then ds[..index] + ds[index + 1..] else ds
  }

  /** Removing row `index` keeps every other row, in order. */
  lemma RemoveKeepsOthers(ds: seq<Draft>, index: int)
    requires 0 <= index < |ds|
    ensures forall j :: 0 <= j < index ==> RemovedAt(ds, index)[j] == ds[j]
    ensures forall j :: index <= j < |ds| - 1 ==> RemovedAt(ds, index)[j] == ds[j + 1]
    ensures multiset(RemovedAt(ds, index)) + multiset{ds[index]} == multiset(ds)
  {
    assert ds == ds[..index] + [ds[index]] + ds[index + 1..];
  }

  /** The form row for a stored ingredient: a null amount or category becomes `''`. */
  function LoadDraft(ing: Ingredient): Draft {
    Draft(ing.name, ing.amount.GetOr(""), OrNull(ing.categoryId))
  }

  function LoadDrafts(ings: seq<Ingredient>): (r: seq<Draft>)
    ensures |r| == |ings| && forall i :: 0 <= i < |ings| ==> r[i] == LoadDraft(ings[i])
  {
    seq(|ings|, i requires 0 <= i < |ings| => LoadDraft(ings[i]))
  }

  /** A row kept on save: its trimmed name is not empty. */
  predicate Named(d: Draft) {
    !Text.IsBlank(d.name)
  }

  /** The request element for a kept row at `position`. */
  function PayloadEntry(d: Draft, position: int): RecipeRoutes.IngredientInput {
    RecipeRoutes.IngredientInput(Some(Text.Trim(d.name)), None,
                                 if Text.IsBlank(d.amount) then None else Some(Text.Trim(d.amount)),
                                 OrNull(d.categoryId), Some(position))
  }

  /** The `ingredients` of the save request: the named rows, trimmed and numbered 0, 1, ... */
  function Payload(ds: seq<Draft>): (r: seq<RecipeRoutes.IngredientInput>)
    ensures |r| == |Seqs.Filter(ds, Named)|
  {
    var kept := Seqs.Filter(ds, Named);
    seq(|kept|, i requires 0 <= i < |kept| => PayloadEntry(kept[i], i))
  }

  /**
   * The payload holds one element per named row, in form order, at consecutive positions from
   * 0; every name and amount is trimmed, and an empty amount or category is sent as null.
   */
  lemma PayloadShape(ds: seq<Draft>)
    ensures var p := Payload(ds);
      var kept := Seqs.Filter(ds, Named);
      && Seqs.Subseq(kept, ds)
      && (forall d :: d in ds && Named(d) ==> d in kept)
      && forall i :: 0 <= i < |p| ==>
           && Named(kept[i])
           && p[i].name == Some(Text.Trim(kept[i].name)) && p[i].position == Some(i)
           && p[i].amount == (if Text.IsBlank(kept[i].amount) then None else Some(Text.Trim(kept[i].amount)))
           && p[i].categoryId == OrNull(kept[i].categoryId)
  {
    Seqs.FilterIsSubseq(ds, Named);
  }

  /** The server accepts every ingredient the editor sends: no payload name is blank. */
  lemma PayloadNamesNotBlank(ds: seq<Draft>)
    ensures forall i :: 0 <= i < |Payload(ds)| ==> !RecipeRoutes.MissingName(Payload(ds)[i].name)
  {
    var kept := Seqs.Filter(ds, Named);
    forall i | 0 <= i < |Payload(ds)|
      ensures !RecipeRoutes.MissingName(Payload(ds)[i].name)
    {
      Text.TrimIdempotent(kept[i].name);
    }
  }

  /** An ingredient as the server stores it: trimmed non-empty name, trimmed non-empty or null amount. */
  predicate Stored(ing: Ingredient) {
    && !Text.IsBlank(ing.name) && Text.Trim(ing.name) == ing.name
    && (ing.amount.None? || (!Text.IsBlank(ing.amount.value) && Text.Trim(ing.amount.value) == ing.amount.value))
  }

  lemma LoadThenSaveEntry(ing: Ingredient, position: int)
    requires Stored(ing)
    ensures Named(LoadDraft(ing))
    ensures PayloadEntry(LoadDraft(ing), position)
      == RecipeRoutes.IngredientInput(Some(ing.name), None, ing.amount, OrNull(ing.categoryId), Some(position))
  {
    if ing.amount.None? {
      assert LoadDraft(ing).amount == "";
    }
  }

  /**
   * Loading a stored recipe and saving it unedited sends back its ingredients: same names,
   * amounts and categories, renumbered 0, 1, ... in stored order.
   */
  lemma LoadThenSave(ings: seq<Ingredient>)
    requires forall i :: 0 <= i < |ings| ==> Stored(ings[i])
    ensures var p := Payload(LoadDrafts(ings));
      && |p| == |ings|
      && forall i :: 0 <= i < |ings| ==>
           p[i] == RecipeRoutes.IngredientInput(Some(ings[i].name), None, ings[i].amount, OrNull(ings[i].categoryId), Some(i))
  {
    var ds := LoadDrafts(ings);
    forall i | 0 <= i < |ds|
      ensures Named(ds[i])
    {
      LoadThenSaveEntry(ings[i], i);
    }
    Seqs.FilterAllOrNone(ds, Named);
    forall i | 0 <= i < |ings|
      ensures Payload(ds)[i] == RecipeRoutes.IngredientInput(Some(ings[i].name), None, ings[i].amount, OrNull(ings[i].categoryId), Some(i))
    {
      LoadThenSaveEntry(ings[i], i);
    }
  }

  /** What a save asks the store to do. */
  datatype SaveRequest = Create(body: RecipeRoutes.RecipeInput) | Update(id: int, body: RecipeRoutes.RecipeInput)

  /** The editor's state; `recipeId` is the route parameter, absent for a new recipe. */
  class Editor {
    const recipeId: Option<int>
    var name: string
    var ingredients: seq<Draft>
    var saving: bool
    var loading: bool

    constructor (recipeId: Option<int>)
      ensures this.recipeId == recipeId
      ensures name == "" && ingredients == [] && !saving && (loading <==> recipeId.Some?)
    {
      this.recipeId := recipeId;
      name, ingredients, saving := "", [], false;
      loading := recipeId.Some?;
    }

    /** The stored recipe arrived: its name and its ingredients as form rows. */
    method Loaded(recipeName: string, ings: seq<Ingredient>)
      modifies this`name, this`ingredients, this`loading
      ensures name == recipeName && ingredients == LoadDrafts(ings) && !loading
    {
      name := recipeName;
      ingredients := LoadDrafts(ings);
      loading := false;
    }

    method SetName(v: string)
      modifies this`name
      ensures name == v
    {
      name := v;
    }

    /** `addIngredient`: one empty row at the end. */
    method AddIngredient()
      modifies this`ingredients
      ensures ingredients == old(ingredients) + [EmptyDraft]
    {
      ingredients := ingredients + [EmptyDraft];
    }

    method UpdateIngredient(index: int, e: Edit)
      modifies this`ingredients
      ensures ingredients == Edited(old(ingredients), index, e)
    {
      ingredients := Edited(ingredients, index, e);
    }

    method RemoveIngredient(index: int)
      modifies this`ingredients
      ensures ingredients == RemovedAt(old(ingredients), index)
    {
      ingredients := RemovedAt(ingredients, index);
    }

    /**
     * `handleSave`: a blank name does nothing. Otherwise the trimmed name and the payload are
     * sent as a create for a new recipe or an update of `recipeId`, and `saving` is back to
     * false afterwards.
     */
    method HandleSave() returns (request: Option<SaveRequest>)
      modifies this`saving
      ensures Text.IsBlank(name) ==> request.None? && saving == old(saving)
      ensures !Text.IsBlank(name) ==>
        var body := RecipeRoutes.RecipeInput(Some(Text.Trim(name)), Payload(ingredients), None);
        && !saving
        && request == Some(if recipeId.None? then Create(body) else Update(recipeId.value, body))
    {
      if Text.IsBlank(name) {
        return None;
      }
      saving := true;
      var body := RecipeRoutes.RecipeInput(Some(Text.Trim(name)), Payload(ingredients), None);
      if recipeId.None? {
        request := Some(Create(body));
      } else {
        request := Some(Update(recipeId.value, body));
      }
      saving := false;
    }
  }
}
