/**
 * The catalog grouped by category (`groupedSubscriptions` in app/page.tsx): a
 * `reduce` that pushes each subscription onto its category's list, creating the
 * list the first time the category is met.
 */
module Grouping {
  import opened Wrappers
  import opened Catalog
  import opened CategoryOrder

  /** The category of each subscription, in catalog order. */
  function CategoriesOf(subs: seq<Subscription>): seq<Category>
  {
    if subs == [] then [] else CategoriesOf(subs[..|subs| - 1]) + [subs[|subs| - 1].category]
  }

  /** The subscriptions of category `c`, in catalog order. */
  function OfCategory(subs: seq<Subscription>, c: Category): (r: seq<Subscription>)
    ensures |r| <= |subs|
    ensures forall s :: s in r <==> s in subs && s.category == c
  {
    if subs == [] then []
    else
      var s := subs[|subs| - 1];
      OfCategory(subs[..|subs| - 1], c) + (if s.category == c then [s] else [])
  }

  lemma OfCategorySnoc(p: seq<Subscription>, s: Subscription, c: Category)
    ensures OfCategory(p + [s], c) == OfCategory(p, c) + (if s.category == c then [s] else [])
  {
    assert (p + [s])[..|p|] == p;
  }

  lemma CategoriesOfSnoc(p: seq<Subscription>, s: Subscription)
    ensures CategoriesOf(p + [s]) == CategoriesOf(p) + [s.category]
  {
    assert (p + [s])[..|p|] == p;
  }

  lemma {:induction false} CategoriesOfMembers(subs: seq<Subscription>, c: Category)
    ensures c in CategoriesOf(subs) <==> exists i :: 0 <= i < |subs| && subs[i].category == c
  {
    if subs != [] {
      var p := subs[..|subs| - 1];
      CategoriesOfMembers(p, c);
      assert forall i :: 0 <= i < |p| ==> subs[i] == p[i];
    }
  }

  /** A category that no subscription has has no subscriptions. */
  lemma {:induction false} OfCategoryAbsent(subs: seq<Subscription>, c: Category)
    requires c !in CategoriesOf(subs)
    ensures OfCategory(subs, c) == []
  {
    if subs != [] {
      var p := subs[..|subs| - 1];
      var s := subs[|subs| - 1];
      assert subs == p + [s];
      CategoriesOfSnoc(p, s);
      OfCategoryAbsent(p, c);
    }
  }

  /** The number of plans of the given subscriptions (`totalCount`'s `reduce`). */
  function PlanCount(subs: seq<Subscription>): nat
  {
    if subs == [] then 0 else PlanCount(subs[..|subs| - 1]) + |subs[|subs| - 1].plans|
  }

  lemma PlanCountSnoc(p: seq<Subscription>, s: Subscription)
    ensures PlanCount(p + [s]) == PlanCount(p) + |s.plans|
  {
    assert (p + [s])[..|p|] == p;
  }

  /** Total number of subscriptions held in the groups. */
  function GroupSizes(groups: seq<(Category, seq<Subscription>)>): nat
  {
    if groups == [] then 0 else |groups[0].1| + GroupSizes(groups[1..])
  }

  /** Total number of plans held in the groups. */
  function GroupPlanCounts(groups: seq<(Category, seq<Subscription>)>): nat
  {
    if groups == [] then 0 else PlanCount(groups[0].1) + GroupPlanCounts(groups[1..])
  }

  /**
   * `acc[s.category].push(s)`, creating an empty list first when the category is new:
   * one more subscription and its plans are held in the groups.
   */
  function PushTo(groups: seq<(Category, seq<Subscription>)>, s: Subscription): (r: seq<(Category, seq<Subscription>)>)
    ensures GroupSizes(r) == GroupSizes(groups) + 1
    ensures GroupPlanCounts(r) == GroupPlanCounts(groups) + |s.plans|
  {
    if groups == [] then
      PlanCountSnoc([], s);
      [(s.category, [s])]
    else if groups[0].0 == s.category then
      PlanCountSnoc(groups[0].1, s);
      [(s.category, groups[0].1 + [s])] + groups[1..]
    else [groups[0]] + PushTo(groups[1..], s)
  }

  lemma {:induction false} PushToKeys(groups: seq<(Category, seq<Subscription>)>, s: Subscription)
    ensures Keys(PushTo(groups, s)) == if s.category in Keys(groups) then Keys(groups) else Keys(groups) + [s.category]
  {
    if groups != [] {
      var r := PushTo(groups, s);
      if groups[0].0 == s.category {
        assert Keys(r) == Keys(groups);
      } else {
        PushToKeys(groups[1..], s);
        assert r == [groups[0]] + PushTo(groups[1..], s);
        assert Keys(groups) == [groups[0].0] + Keys(groups[1..]);
      }
    }
  }

  lemma {:induction false} PushToLookup(groups: seq<(Category, seq<Subscription>)>, s: Subscription, k: Category)
    ensures Lookup(PushTo(groups, s), k) ==
              if k == s.category then Some(Lookup(groups, k).GetOr([]) + [s]) else Lookup(groups, k)
  {
    if groups == [] {
      assert Lookup(groups, k).GetOr([]) + [s] == [s];
    } else if groups[0].0 == s.category {
      var r := [(s.category, groups[0].1 + [s])] + groups[1..];
      assert r[1..] == groups[1..];
    } else {
      var r := [groups[0]] + PushTo(groups[1..], s);
      assert r[1..] == PushTo(groups[1..], s);
      PushToLookup(groups[1..], s, k);
    }
  }

  /**
   * The catalog grouped by category, groups in order of first occurrence; the groups
   * together hold every catalog subscription once, and all of its plans.
   */
  function GroupedSubscriptions(catalog: seq<Subscription>): (r: seq<(Category, seq<Subscription>)>)
    ensures GroupSizes(r) == |catalog|
    ensures GroupPlanCounts(r) == PlanCount(catalog)
  {
    if catalog == [] then []
    else PushTo(GroupedSubscriptions(catalog[..|catalog| - 1]), catalog[|catalog| - 1])
  }

  lemma GroupedSnoc(p: seq<Subscription>, s: Subscription)
    ensures GroupedSubscriptions(p + [s]) == PushTo(GroupedSubscriptions(p), s)
  {
    assert (p + [s])[..|p|] == p;
  }

  /** The groups' categories are the catalog's, in order of first occurrence. */
  lemma {:induction false} GroupedKeys(catalog: seq<Subscription>)
    ensures Keys(GroupedSubscriptions(catalog)) == Distinct(CategoriesOf(catalog))
  {
    if catalog != [] {
      var p := catalog[..|catalog| - 1];
      var s := catalog[|catalog| - 1];
      assert catalog == p + [s];
      GroupedKeys(p);
      GroupedSnoc(p, s);
      PushToKeys(GroupedSubscriptions(p), s);
      CategoriesOfSnoc(p, s);
      var cs := CategoriesOf(p) + [s.category];
      assert cs[..|cs| - 1] == CategoriesOf(p);
    }
  }

  /** Each group holds exactly the catalog's subscriptions of its category, in catalog order. */
  lemma {:induction false} GroupedValues(catalog: seq<Subscription>, c: Category)
    ensures Lookup(GroupedSubscriptions(catalog), c) ==
              if c in CategoriesOf(catalog) then Some(OfCategory(catalog, c)) else None
  {
    if catalog != [] {
      var p := catalog[..|catalog| - 1];
      var s := catalog[|catalog| - 1];
      assert catalog == p + [s];
      var g := GroupedSubscriptions(p);
      GroupedValues(p, c);
      GroupedSnoc(p, s);
      PushToLookup(g, s, c);
      CategoriesOfSnoc(p, s);
      OfCategorySnoc(p, s, c);
      if s.category == c {
        if c !in CategoriesOf(p) {
          OfCategoryAbsent(p, c);
        }
        assert Lookup(g, c).GetOr([]) == OfCategory(p, c);
        assert OfCategory(catalog, c) == OfCategory(p, c) + [s];
        assert c in CategoriesOf(catalog);
      } else {
        assert OfCategory(catalog, c) == OfCategory(p, c);
        assert (c in CategoriesOf(catalog)) == (c in CategoriesOf(p));
      }
    }
  }

  /** Entry i of the groups is its category's subscriptions. */
  lemma GroupedEntry(catalog: seq<Subscription>, i: nat)
    requires i < |GroupedSubscriptions(catalog)|
    ensures GroupedSubscriptions(catalog)[i].1 == OfCategory(catalog, GroupedSubscriptions(catalog)[i].0)
  {
    var g := GroupedSubscriptions(catalog);
    GroupedKeys(catalog);
    LookupUnique(g, i);
    GroupedValues(catalog, g[i].0);
  }

  /** Every catalog subscription is in the group of its category and in no other group. */
  lemma SubscriptionInOneGroup(catalog: seq<Subscription>, s: Subscription, i: nat)
    requires s in catalog
    requires i < |GroupedSubscriptions(catalog)|
    ensures s.category in Keys(GroupedSubscriptions(catalog))
    ensures s in GroupedSubscriptions(catalog)[i].1 <==> GroupedSubscriptions(catalog)[i].0 == s.category
  {
    GroupedKeys(catalog);
    var k :| 0 <= k < |catalog| && catalog[k] == s;
    CategoriesOfMembers(catalog, s.category);
    GroupedEntry(catalog, i);
  }
}
