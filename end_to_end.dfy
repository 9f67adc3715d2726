/**
 * Properties that span the client and the server: the reorder request the client store
 * builds (frontend/src/store/useStore.js) as the category route applies it
 * (backend/src/routes/categories.js).
 */
module EndToEnd {
  import opened Wrappers
  import opened Domain
  import Ordering
  import Store
  import CategoryRoutes

  /** The categories as arranged by the user, each renumbered to its 1-based place. */
  function Renumbered(cats: seq<Category>): (r: seq<Category>)
    ensures |r| == |cats| && forall i :: 0 <= i < |cats| ==> r[i] == cats[i].(sortOrder := i + 1)
  {
    seq(|cats|, i requires 0 <= i < |cats| => cats[i].(sortOrder := i + 1))
  }

  /** The user's arrangement is a listing of the whole table: each row once, no id 0. */
  ghost predicate Arrangement(m: map<int, Category>, cats: seq<Category>) {
    && (forall k :: k in m ==> m[k].id == k && k != 0)
    && (forall i, j :: 0 <= i < j < |cats| ==> cats[i].id != cats[j].id)
    && (forall c :: c in cats <==> c in m.Values)
  }

  /** The server accepts the client's payload: every entry names a row and a sort order. */
  lemma PayloadAccepted(m: map<int, Category>, cats: seq<Category>)
    requires Arrangement(m, cats)
    ensures CategoryRoutes.Reordered(m, Store.ReorderPayload(cats)).Some?
  {
    var es := Store.ReorderPayload(cats);
    forall i | 0 <= i < |es|
      ensures CategoryRoutes.WellFormed(es[i])
    {
      assert cats[i] in m.Values;
      Ordering.ValueHasKey(m, cats[i]);
    }
    CategoryRoutes.ReorderAbortsIffMalformed(m, es);
  }

  /** Each arranged category keeps its row and gets its 1-based place as sort order. */
  lemma ReorderPlacesArrangement(m: map<int, Category>, cats: seq<Category>)
    requires Arrangement(m, cats)
    requires CategoryRoutes.Reordered(m, Store.ReorderPayload(cats)).Some?
    ensures var after := CategoryRoutes.Reordered(m, Store.ReorderPayload(cats)).value;
      && after.Keys == m.Keys
      && forall i :: 0 <= i < |cats| ==>
           cats[i].id in m && m[cats[i].id] == cats[i] && after[cats[i].id] == Renumbered(cats)[i]
  {
    var es := Store.ReorderPayload(cats);
    CategoryRoutes.ReorderKeepsRows(m, es);
    forall i | 0 <= i < |cats|
      ensures cats[i].id in m && m[cats[i].id] == cats[i]
      ensures CategoryRoutes.Reordered(m, es).value[cats[i].id] == Renumbered(cats)[i]
    {
      assert cats[i] in m.Values;
      Ordering.ValueHasKey(m, cats[i]);
      forall j | i < j < |es|
        ensures es[j].id != es[i].id
      {
        assert cats[j].id != cats[i].id;
      }
      CategoryRoutes.ReorderLastEntryWins(m, es, i);
    }
  }

  /** Sort orders 1, 2, ... in list order make the renumbered arrangement a listing by sort order. */
  lemma RenumberedOrdered(cats: seq<Category>)
    ensures Ordering.Ordered(Renumbered(cats), CategoryOrder)
  {
  }

  /**
   * After the reorder, the table holds each category with its place in the arrangement as
   * sort order, and any listing by sort order is exactly the arrangement.
   */
  lemma ReorderListsArrangement(m: map<int, Category>, cats: seq<Category>, listing: seq<Category>)
    requires Arrangement(m, cats)
    requires CategoryRoutes.Reordered(m, Store.ReorderPayload(cats)).Some?
    requires Ordering.Ordered(listing, CategoryOrder)
    requires forall c :: c in listing <==> c in CategoryRoutes.Reordered(m, Store.ReorderPayload(cats)).value.Values
    ensures listing == Renumbered(cats)
  {
    var es := Store.ReorderPayload(cats);
    var after := CategoryRoutes.Reordered(m, es).value;
    var want := Renumbered(cats);
    ReorderPlacesArrangement(m, cats);
    RenumberedOrdered(cats);
    forall c
      ensures c in want <==> c in after.Values
    {
      if c in want {
        var i :| 0 <= i < |want| && want[i] == c;
        assert after[cats[i].id] == c;
      }
      if c in after.Values {
        Ordering.ValueHasKey(after, c);
        var k :| k in after && after[k] == c;
        assert m[k] in m.Values;
        var i :| 0 <= i < |cats| && cats[i] == m[k];
        assert after[cats[i].id] == want[i];
      }
    }
    Ordering.OrderedUnique(listing, want, CategoryOrder);
  }
}
