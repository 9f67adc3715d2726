/**
 * The shopping-list screen's arrangement of the store's items into sections
 * (frontend/src/components/GroceryList/GroceryListView.jsx): an "Uncategorized" section, one
 * section per category that has unchecked items, in category order, and a "Checked" section.
 */
module GroceryList {
  import opened Wrappers
  import opened Domain
  import Seqs

  /** A category's section: the category and its unchecked items. */
  datatype Group = Group(category: Category, items: seq<Item>)

  /** What the screen shows. */
  datatype View = View(uncategorized: seq<Item>, groups: seq<Group>, checked: seq<Item>,
                       clearCheckedCount: Option<nat>, emptyMessage: bool)

  function Unchecked(items: seq<Item>): seq<Item> { Seqs.Filter(items, IsUnchecked) }

  function Checked(items: seq<Item>): seq<Item> { Seqs.Filter(items, IsChecked) }

  function InCategory(c: Category): Item -> bool { (i: Item) => i.categoryId == Some(c.id) }

  function Grouped(categories: seq<Category>, unchecked: seq<Item>): seq<Group>
    decreases |categories|
  {
    if categories == [] then []
    else
      var g := Group(categories[0], Seqs.Filter(unchecked, InCategory(categories[0])));
      var rest := Grouped(categories[1..], unchecked);
      if |g.items| > 0 then [g] + rest else rest
  }

  function Uncategorized(unchecked: seq<Item>): seq<Item> {
    Seqs.Filter(unchecked, (i: Item) => !Truthy(i.categoryId))
  }

  /** The screen for the store's items and categories. */
  function Render(items: seq<Item>, categories: seq<Category>): (v: View)
    ensures v.clearCheckedCount.Some? <==> |v.checked| > 0
    ensures v.clearCheckedCount.Some? ==> v.clearCheckedCount.value == |v.checked|
    ensures v.emptyMessage <==> items == []
  {
    var unchecked := Unchecked(items);
    var checked := Checked(items);
    View(Uncategorized(unchecked), Grouped(categories, unchecked), checked,
         if |checked| > 0 then Some(|checked|) else None, items == [])
  }

  /** The unchecked and the checked items split the list: nothing lost or duplicated, order kept. */
  lemma CheckedSplit(items: seq<Item>)
    ensures multiset(Unchecked(items)) + multiset(Checked(items)) == multiset(items)
    ensures Seqs.Subseq(Unchecked(items), items) && Seqs.Subseq(Checked(items), items)
  {
    Seqs.FilterIsSubseq(items, IsUnchecked);
    Seqs.FilterIsSubseq(items, IsChecked);
    CheckedSplitCounts(items);
  }

  lemma {:induction false} CheckedSplitCounts(items: seq<Item>)
    ensures multiset(Unchecked(items)) + multiset(Checked(items)) == multiset(items)
  {
    if items != [] {
      var x, tail := items[0], items[1..];
      CheckedSplitCounts(tail);
      assert items == [x] + tail;
      if IsChecked(x) {
        assert Checked(items) == [x] + Checked(tail);
        assert Unchecked(items) == Unchecked(tail);
      } else {
        assert Unchecked(items) == [x] + Unchecked(tail);
        assert Checked(items) == Checked(tail);
      }
    }
  }

  /** The categories of the sections, in order. */
  function GroupCategories(groups: seq<Group>): (r: seq<Category>)
    ensures |r| == |groups|
    ensures forall i :: 0 <= i < |groups| ==> r[i] == groups[i].category
    decreases |groups|
  {
    if groups == [] then [] else [groups[0].category] + GroupCategories(groups[1..])
  }

  /**
   * Each section is one listed category with at least one item, all of them unchecked items
   * of that category kept in list order; sections follow the category order.
   */
  lemma {:induction false} GroupsWellFormed(categories: seq<Category>, items: seq<Item>)
    ensures var gs := Grouped(categories, Unchecked(items));
      && Seqs.Subseq(GroupCategories(gs), categories)
      && forall g :: g in gs ==>
           && g.category in categories && |g.items| > 0
           && Seqs.Subseq(g.items, Unchecked(items))
           && forall i :: 0 <= i < |g.items| ==> IsUnchecked(g.items[i]) && g.items[i].categoryId == Some(g.category.id)
    decreases |categories|
  {
    var unchecked := Unchecked(items);
    if categories != [] {
      GroupsWellFormed(categories[1..], items);
      var c := categories[0];
      var own := Seqs.Filter(unchecked, InCategory(c));
      Seqs.FilterIsSubseq(unchecked, InCategory(c));
      var rest := Grouped(categories[1..], unchecked);
      assert categories == [c] + categories[1..];
      if |own| > 0 {
        assert GroupCategories([Group(c, own)] + rest) == [c] + GroupCategories(rest);
        assert ([c] + categories[1..])[1..] == categories[1..];
      } else {
        Seqs.SubseqSkip(GroupCategories(rest), c, categories[1..]);
      }
    }
  }

  /** Some section lists the item. */
  predicate InSomeGroup(groups: seq<Group>, x: Item) {
    exists g :: g in groups && x in g.items
  }

  /** The item's category is one of the listed categories. */
  predicate CategoryListed(categories: seq<Category>, x: Item) {
    exists c :: c in categories && x.categoryId == Some(c.id)
  }

  lemma {:induction false} GroupedFindsItem(categories: seq<Category>, unchecked: seq<Item>, x: Item)
    requires x in unchecked
    ensures InSomeGroup(Grouped(categories, unchecked), x) <==> CategoryListed(categories, x)
    decreases |categories|
  {
    if categories != [] {
      var c := categories[0];
      var own := Seqs.Filter(unchecked, InCategory(c));
      GroupedFindsItem(categories[1..], unchecked, x);
      var gs := Grouped(categories, unchecked);
      var rest := Grouped(categories[1..], unchecked);
      if x.categoryId == Some(c.id) {
        assert x in own;
        assert Group(c, own) in gs;
        assert CategoryListed(categories, x);
      } else {
        if InSomeGroup(gs, x) {
          var g :| g in gs && x in g.items;
          assert x !in own;
          assert g in rest;
        }
        if CategoryListed(categories, x) {
          var d :| d in categories && x.categoryId == Some(d.id);
          assert d in categories[1..];
        }
        if InSomeGroup(rest, x) {
          var g :| g in rest && x in g.items;
          assert g in gs;
        }
        if CategoryListed(categories[1..], x) {
          var d :| d in categories[1..] && x.categoryId == Some(d.id);
          assert d in categories;
        }
      }
    }
  }

  /**
   * An unchecked item is shown exactly when its category is unset (or 0) or is one of the
   * listed categories; an item of an unlisted category appears in no section. Checked items
   * are always shown, in the "Checked" section.
   */
  lemma Shown(items: seq<Item>, categories: seq<Category>, x: Item)
    requires x in items
    ensures var v := Render(items, categories);
      && (IsUnchecked(x) ==>
            ((x in v.uncategorized || InSomeGroup(v.groups, x)) <==> (!Truthy(x.categoryId) || CategoryListed(categories, x))))
      && (IsChecked(x) <==> x in v.checked)
  {
    var unchecked := Unchecked(items);
    if IsUnchecked(x) {
      assert x in unchecked;
      GroupedFindsItem(categories, unchecked, x);
    }
  }
}
