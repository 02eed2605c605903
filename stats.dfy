/**
 * The per-category figures shown on each category header (`getCategoryStats`
 * in app/page.tsx), and how they add up across categories.
 */
module Stats {
  import opened Wrappers
  import opened Catalog
  import opened CategoryOrder
  import opened Selections
  import opened Pricing
  import opened Grouping

  datatype CategoryStats = CategoryStats(selectedCount: nat, totalCount: nat, categoryTotal: real)

  /**
   * For `category` and its catalog subscriptions `subs`: how many selections are in
   * the category (priced or not), how many plans it offers, and its unrounded subtotal.
   */
  function GetCategoryStats(category: string, subs: seq<Subscription>, sels: seq<SelectedSubscription>, code: string)
    : (r: CategoryStats)
    ensures r.selectedCount <= |sels|
  {
    CategoryStats(|InCategory(sels, category)|, PlanCount(subs), CategoryTotal(sels, category, code))
  }

  /** Sum of the selected counts of the categories `cs`. */
  function SelectedCountsOver(cs: seq<Category>, sels: seq<SelectedSubscription>): nat
  {
    if cs == [] then 0 else |InCategory(sels, CategoryKey(cs[0]))| + SelectedCountsOver(cs[1..], sels)
  }

  /** Sum of the subtotals of the categories `cs`. */
  function CategoryTotalsOver(cs: seq<Category>, sels: seq<SelectedSubscription>, code: string): real
  {
    if cs == [] then 0.0 else CategoryTotal(sels, CategoryKey(cs[0]), code) + CategoryTotalsOver(cs[1..], sels, code)
  }

  lemma {:induction false} SumsOverSnoc(cs: seq<Category>, p: seq<SelectedSubscription>, x: SelectedSubscription, code: string)
    requires forall i, j :: 0 <= i < j < |cs| ==> cs[i] != cs[j]
    ensures CategoryTotalsOver(cs, p + [x], code) ==
              CategoryTotalsOver(cs, p, code) + (if x.subscription.category in cs then Contribution(x, code) else 0.0)
    ensures SelectedCountsOver(cs, p + [x]) ==
              SelectedCountsOver(cs, p) + (if x.subscription.category in cs then 1 else 0)
  {
    if cs != [] {
      SumsOverSnoc(cs[1..], p, x, code);
      var c := cs[0];
      assert c !in cs[1..];
      if x.subscription.category == c {
        CategoryTotalSnocSame(p, x, code);
        InCategorySnoc(p, x, CategoryKey(c));
      } else {
        CategoryTotalSnocOther(p, x, c, code);
        CategoryKeyInjective(x.subscription.category, c);
        InCategorySnoc(p, x, CategoryKey(c));
      }
    }
  }

  lemma {:induction false} SumsOverNothing(cs: seq<Category>, code: string)
    ensures CategoryTotalsOver(cs, [], code) == 0.0 && SelectedCountsOver(cs, []) == 0
  {
    if cs != [] {
      SumsOverNothing(cs[1..], code);
    }
  }

  /**
   * The categories partition the selections: the subtotals of the seven categories
   * add up to the monthly total, and their selected counts to the number of selections.
   */
  lemma {:induction false} StatsPartition(sels: seq<SelectedSubscription>, code: string)
    ensures CategoryTotalsOver(AllCategories, sels, code) == TotalMonthly(sels, code)
    ensures SelectedCountsOver(AllCategories, sels) == |sels|
  {
    if sels == [] {
      SumsOverNothing(AllCategories, code);
    } else {
      var p := sels[..|sels| - 1];
      var x := sels[|sels| - 1];
      assert sels == p + [x];
      StatsPartition(p, code);
      AllCategoriesComplete(x.subscription.category);
      SumsOverSnoc(AllCategories, p, x, code);
      TotalMonthlySnoc(p, x, code);
    }
  }

  /** A category's header subtotal is the chart's unrounded value for it, or 0 without one. */
  lemma StatsMatchChart(c: Category, subs: seq<Subscription>, sels: seq<SelectedSubscription>, code: string)
    ensures GetCategoryStats(CategoryKey(c), subs, sels, code).categoryTotal ==
              Lookup(CategoryTotals(sels, code), c).GetOr(0.0)
  {
    CategoryTotalsValues(sels, c, code);
    if c !in PricedCategories(sels, code) {
      CategoryTotalUnpriced(sels, c, code);
    }
  }

  /** The header of group i counts the plans of exactly the catalog's subscriptions of its category. */
  lemma GroupStats(catalog: seq<Subscription>, sels: seq<SelectedSubscription>, code: string, i: nat)
    requires i < |GroupedSubscriptions(catalog)|
    ensures var (c, g) := GroupedSubscriptions(catalog)[i];
            GetCategoryStats(CategoryKey(c), g, sels, code).totalCount == PlanCount(OfCategory(catalog, c))
  {
    GroupedEntry(catalog, i);
  }

  /** A string that spells no category has no selections and subtotal 0. */
  lemma {:induction false} StatsOfUnknownCategory(category: string, subs: seq<Subscription>, sels: seq<SelectedSubscription>, code: string)
    requires ParseCategory(category).None?
    ensures GetCategoryStats(category, subs, sels, code).selectedCount == 0
    ensures GetCategoryStats(category, subs, sels, code).categoryTotal == 0.0
  {
    if sels != [] {
      var p := sels[..|sels| - 1];
      var x := sels[|sels| - 1];
      assert sels == p + [x];
      StatsOfUnknownCategory(category, subs, p, code);
      InCategorySnoc(p, x, category);
      assert CategoryKey(x.subscription.category) != category;
    }
  }
}
