/**
 * The pricing aggregation of app/page.tsx: the monthly-equivalent cost of one
 * selection in the active country, the monthly and yearly totals, and the
 * per-category subtotals behind the chart. Prices are exact reals.
 */
module Pricing {
  import opened Wrappers
  import opened Catalog
  import opened CategoryOrder
  import opened Selections

  /**
   * `price.yearly || price.monthly * 12`: the yearly price, or twelve months when
   * it is absent. JavaScript's `||` also skips a yearly price of 0.
   */
  function YearlyOrDerived(p: Price): real
  {
    if p.yearly.Some? && p.yearly.value != 0.0 then p.yearly.value else p.monthly * 12.0
  }

  /** The monthly-equivalent cost of a price under a billing interval. */
  function MonthlyCost(p: Price, billing: Billing): real
  {
    match billing
    case Monthly => p.monthly
    case Yearly => YearlyOrDerived(p) / 12.0
  }

  lemma MonthlyCostCases(p: Price)
    ensures MonthlyCost(p, Monthly) == p.monthly
    ensures p.yearly.None? ==> MonthlyCost(p, Yearly) == p.monthly
    ensures p.yearly == Some(0.0) ==> MonthlyCost(p, Yearly) == p.monthly
    ensures p.yearly.Some? && p.yearly.value != 0.0 ==> MonthlyCost(p, Yearly) * 12.0 == p.yearly.value
    ensures MonthlyCost(p, Yearly) == MonthlyCost(p, Monthly) <==> YearlyOrDerived(p) == p.monthly * 12.0
  {
  }

  /** Whether the selection's plan has a price in the country with code `code`. */
  predicate Priced(s: SelectedSubscription, code: string)
  {
    code in s.plan.pricing
  }

  /** The monthly-equivalent cost of a selection; None when it has no price in `code`. */
  function ItemCost(s: SelectedSubscription, code: string): (r: Option<real>)
    ensures r.None? <==> !Priced(s, code)
    ensures r.Some? ==> r.value == MonthlyCost(s.plan.pricing[code], s.billing)
  {
    match PriceFor(s.plan, code)
    case None => None
    case Some(p) => Some(MonthlyCost(p, s.billing))
  }

  /** What a selection adds to a total: its cost, or nothing when it is unpriced. */
  function Contribution(s: SelectedSubscription, code: string): real
  {
    ItemCost(s, code).GetOr(0.0)
  }

  /** The monthly total: the page's `reduce` over the selections, from the left. */
  function TotalMonthly(sels: seq<SelectedSubscription>, code: string): real
  {
    if sels == [] then 0.0
    else TotalMonthly(sels[..|sels| - 1], code) + Contribution(sels[|sels| - 1], code)
  }

  /** The yearly total is derived from the monthly total, not summed on its own. */
  function TotalYearly(sels: seq<SelectedSubscription>, code: string): real
  {
    TotalMonthly(sels, code) * 12.0
  }

  lemma TotalMonthlySnoc(q: seq<SelectedSubscription>, x: SelectedSubscription, code: string)
    ensures TotalMonthly(q + [x], code) == TotalMonthly(q, code) + Contribution(x, code)
  {
    assert (q + [x])[..|q|] == q;
  }

  /** The total of a concatenation is the sum of the totals. */
  lemma {:induction false} TotalMonthlyAppend(a: seq<SelectedSubscription>, b: seq<SelectedSubscription>, code: string)
    ensures TotalMonthly(a + b, code) == TotalMonthly(a, code) + TotalMonthly(b, code)
  {
    if b == [] {
      assert a + b == a;
    } else {
      var b' := b[..|b| - 1];
      var y := b[|b| - 1];
      assert b == b' + [y];
      assert a + b == (a + b') + [y];
      TotalMonthlySnoc(a + b', y, code);
      TotalMonthlyAppend(a, b', code);
      TotalMonthlySnoc(b', y, code);
    }
  }

  /** A selection without a price in `code` does not change the total. */
  lemma TotalMonthlyExcludesUnpriced(sels: seq<SelectedSubscription>, i: nat, code: string)
    requires i < |sels| && !Priced(sels[i], code)
    ensures TotalMonthly(sels, code) == TotalMonthly(sels[..i] + sels[i + 1..], code)
  {
    assert sels == sels[..i] + [sels[i]] + sels[i + 1..];
    TotalMonthlyAppend(sels[..i] + [sels[i]], sels[i + 1..], code);
    TotalMonthlySnoc(sels[..i], sels[i], code);
    TotalMonthlyAppend(sels[..i], sels[i + 1..], code);
  }

  /** The selections that have a price in `code`, in list order. */
  function PricedOnly(sels: seq<SelectedSubscription>, code: string): (r: seq<SelectedSubscription>)
    ensures forall x :: x in r <==> x in sels && Priced(x, code)
  {
    if sels == [] then []
    else
      var p := sels[..|sels| - 1];
      var x := sels[|sels| - 1];
      assert sels == p + [x];
      PricedOnly(p, code) + (if Priced(x, code) then [x] else [])
  }

  lemma PricedOnlySnoc(p: seq<SelectedSubscription>, x: SelectedSubscription, code: string)
    ensures PricedOnly(p + [x], code) == PricedOnly(p, code) + (if Priced(x, code) then [x] else [])
  {
    assert (p + [x])[..|p|] == p;
  }

  /** The total is the sum of the monthly-equivalent costs of the priced selections. */
  lemma {:induction false} TotalMonthlyOfPriced(sels: seq<SelectedSubscription>, code: string)
    ensures TotalMonthly(sels, code) == TotalMonthly(PricedOnly(sels, code), code)
  {
    if sels != [] {
      var p := sels[..|sels| - 1];
      var x := sels[|sels| - 1];
      assert sels == p + [x];
      TotalMonthlyOfPriced(p, code);
      TotalMonthlySnoc(p, x, code);
      PricedOnlySnoc(p, x, code);
      if Priced(x, code) {
        TotalMonthlySnoc(PricedOnly(p, code), x, code);
      } else {
        assert PricedOnly(sels, code) == PricedOnly(p, code);
      }
    }
  }

  /** What a year of a selection costs under its own billing interval; nothing when unpriced. */
  function YearlyAmount(s: SelectedSubscription, code: string): real
  {
    if !Priced(s, code) then 0.0
    else if s.billing == Monthly then s.plan.pricing[code].monthly * 12.0
    else YearlyOrDerived(s.plan.pricing[code])
  }

  function SumYearlyAmounts(sels: seq<SelectedSubscription>, code: string): real
  {
    if sels == [] then 0.0
    else SumYearlyAmounts(sels[..|sels| - 1], code) + YearlyAmount(sels[|sels| - 1], code)
  }

  /**
   * The yearly total is twelve monthly totals, which is what each selection costs
   * for a year under its own billing interval: a monthly-billed plan counts as
   * twelve monthly payments even when it lists a different yearly price.
   */
  lemma {:induction false} TotalYearlyIsSumOfYearlyAmounts(sels: seq<SelectedSubscription>, code: string)
    ensures TotalYearly(sels, code) == SumYearlyAmounts(sels, code)
  {
    if sels != [] {
      var p := sels[..|sels| - 1];
      TotalYearlyIsSumOfYearlyAmounts(p, code);
      assert Contribution(sels[|sels| - 1], code) * 12.0 == YearlyAmount(sels[|sels| - 1], code);
    }
  }

  /** The categories of the priced selections, in list order (with repetitions). */
  function PricedCategories(sels: seq<SelectedSubscription>, code: string): seq<Category>
  {
    if sels == [] then []
    else
      PricedCategories(sels[..|sels| - 1], code)
      + (if Priced(sels[|sels| - 1], code) then [sels[|sels| - 1].subscription.category] else [])
  }

  /** A category occurs among the priced categories iff some priced selection is in it. */
  lemma {:induction false} PricedCategoriesMembers(sels: seq<SelectedSubscription>, code: string, c: Category)
    ensures c in PricedCategories(sels, code) <==>
              exists i :: 0 <= i < |sels| && Priced(sels[i], code) && sels[i].subscription.category == c
  {
    if sels != [] {
      var p := sels[..|sels| - 1];
      PricedCategoriesMembers(p, code, c);
      assert forall i :: 0 <= i < |p| ==> sels[i] == p[i];
    }
  }

  lemma PricedCategoriesSnoc(p: seq<SelectedSubscription>, x: SelectedSubscription, code: string)
    ensures PricedCategories(p + [x], code) == PricedCategories(p, code) + (if Priced(x, code) then [x.subscription.category] else [])
  {
    assert (p + [x])[..|p|] == p;
  }

  /** Sum of the values of an association list. */
  function SumValues(acc: seq<(Category, real)>): real
  {
    if acc == [] then 0.0 else acc[0].1 + SumValues(acc[1..])
  }

  /** `acc[c] = (acc[c] || 0) + v`: add to the entry of `c`, or append a new entry. */
  function AddTo(acc: seq<(Category, real)>, c: Category, v: real): (r: seq<(Category, real)>)
    ensures SumValues(r) == SumValues(acc) + v
  {
    if acc == [] then [(c, v)]
    else if acc[0].0 == c then [(c, acc[0].1 + v)] + acc[1..]
    else [acc[0]] + AddTo(acc[1..], c, v)
  }

  /** Adding to an existing key keeps the keys; a new key goes last. */
  lemma {:induction false} AddToKeys(acc: seq<(Category, real)>, c: Category, v: real)
    ensures Keys(AddTo(acc, c, v)) == if c in Keys(acc) then Keys(acc) else Keys(acc) + [c]
  {
    if acc != [] {
      var r := AddTo(acc, c, v);
      if acc[0].0 == c {
        assert Keys(r) == Keys(acc);
      } else {
        AddToKeys(acc[1..], c, v);
        assert r == [acc[0]] + AddTo(acc[1..], c, v);
        assert Keys(acc) == [acc[0].0] + Keys(acc[1..]);
      }
    }
  }

  /** Adding to the entry of `c` changes the value stored under `c` only. */
  lemma {:induction false} AddToLookup(acc: seq<(Category, real)>, c: Category, v: real, k: Category)
    ensures Lookup(AddTo(acc, c, v), k) == if k == c then Some(Lookup(acc, c).GetOr(0.0) + v) else Lookup(acc, k)
  {
    if acc == [] {
    } else if acc[0].0 == c {
      var r := [(c, acc[0].1 + v)] + acc[1..];
      assert r[1..] == acc[1..];
      assert Lookup(r, k) == if k == c then Some(acc[0].1 + v) else Lookup(acc[1..], k);
    } else {
      var r := [acc[0]] + AddTo(acc[1..], c, v);
      assert r[1..] == AddTo(acc[1..], c, v);
      AddToLookup(acc[1..], c, v, k);
    }
  }

  /** The per-category subtotals the chart is built from, keyed in insertion order. */
  function CategoryTotals(sels: seq<SelectedSubscription>, code: string): seq<(Category, real)>
  {
    if sels == [] then []
    else
      var acc := CategoryTotals(sels[..|sels| - 1], code);
      var x := sels[|sels| - 1];
      match ItemCost(x, code)
      case None => acc
      case Some(v) => AddTo(acc, x.subscription.category, v)
  }

  /** The selections whose subscription is in `category` (`filter` on the category string). */
  function InCategory(sels: seq<SelectedSubscription>, category: string): (r: seq<SelectedSubscription>)
    ensures |r| <= |sels|
  {
    if sels == [] then []
    else
      var x := sels[|sels| - 1];
      InCategory(sels[..|sels| - 1], category) + (if CategoryKey(x.subscription.category) == category then [x] else [])
  }

  lemma InCategorySnoc(p: seq<SelectedSubscription>, x: SelectedSubscription, category: string)
    ensures InCategory(p + [x], category) ==
              InCategory(p, category) + (if CategoryKey(x.subscription.category) == category then [x] else [])
  {
    assert (p + [x])[..|p|] == p;
  }

  /** The filter keeps exactly the selections of the category. */
  lemma {:induction false} InCategoryMembers(sels: seq<SelectedSubscription>, category: string, s: SelectedSubscription)
    ensures s in InCategory(sels, category) <==> s in sels && CategoryKey(s.subscription.category) == category
  {
    if sels != [] {
      var p := sels[..|sels| - 1];
      assert sels == p + [sels[|sels| - 1]];
      InCategoryMembers(p, category, s);
    }
  }

  /** The unrounded monthly subtotal of one category. */
  function CategoryTotal(sels: seq<SelectedSubscription>, category: string, code: string): real
  {
    TotalMonthly(InCategory(sels, category), code)
  }

  lemma CategoryTotalSnoc(p: seq<SelectedSubscription>, x: SelectedSubscription, category: string, code: string)
    ensures CategoryTotal(p + [x], category, code) ==
              CategoryTotal(p, category, code) + (if CategoryKey(x.subscription.category) == category then Contribution(x, code) else 0.0)
  {
    assert (p + [x])[..|p|] == p;
    assert InCategory(p + [x], category) ==
             InCategory(p, category) + (if CategoryKey(x.subscription.category) == category then [x] else []);
    if CategoryKey(x.subscription.category) == category {
      TotalMonthlySnoc(InCategory(p, category), x, code);
    } else {
      assert InCategory(p + [x], category) == InCategory(p, category);
    }
  }

  /** A category none of whose selections is priced has subtotal 0. */
  lemma {:induction false} CategoryTotalUnpriced(sels: seq<SelectedSubscription>, c: Category, code: string)
    requires c !in PricedCategories(sels, code)
    ensures CategoryTotal(sels, CategoryKey(c), code) == 0.0
  {
    if sels != [] {
      var p := sels[..|sels| - 1];
      var x := sels[|sels| - 1];
      assert sels == p + [x];
      CategoryTotalUnpriced(p, c, code);
      CategoryTotalSnoc(p, x, CategoryKey(c), code);
      CategoryKeyInjective(x.subscription.category, c);
    }
  }

  /** The chart's categories are those of the priced selections, in order of first occurrence. */
  lemma {:induction false} CategoryTotalsKeys(sels: seq<SelectedSubscription>, code: string)
    ensures Keys(CategoryTotals(sels, code)) == Distinct(PricedCategories(sels, code))
  {
    if sels != [] {
      var p := sels[..|sels| - 1];
      var x := sels[|sels| - 1];
      assert sels == p + [x];
      CategoryTotalsKeys(p, code);
      PricedCategoriesSnoc(p, x, code);
      var pc := PricedCategories(p, code);
      if Priced(x, code) {
        var cs := pc + [x.subscription.category];
        assert cs[..|cs| - 1] == pc;
        assert Distinct(cs) == if x.subscription.category in Distinct(pc) then Distinct(pc) else Distinct(pc) + [x.subscription.category];
        assert CategoryTotals(sels, code) == AddTo(CategoryTotals(p, code), x.subscription.category, Contribution(x, code));
        AddToKeys(CategoryTotals(p, code), x.subscription.category, Contribution(x, code));
      } else {
        assert PricedCategories(sels, code) == pc;
        assert CategoryTotals(sels, code) == CategoryTotals(p, code);
      }
    }
  }

  lemma CategoryTotalsSnoc(p: seq<SelectedSubscription>, x: SelectedSubscription, code: string)
    ensures CategoryTotals(p + [x], code) ==
              if Priced(x, code) then AddTo(CategoryTotals(p, code), x.subscription.category, Contribution(x, code))
              else CategoryTotals(p, code)
  {
    assert (p + [x])[..|p|] == p;
  }

  /** The chart's value for each category is that category's subtotal. */
  lemma {:induction false} CategoryTotalsValues(sels: seq<SelectedSubscription>, c: Category, code: string)
    ensures Lookup(CategoryTotals(sels, code), c) ==
              if c in PricedCategories(sels, code) then Some(CategoryTotal(sels, CategoryKey(c), code)) else None
  {
    if sels != [] {
      var p := sels[..|sels| - 1];
      var x := sels[|sels| - 1];
      assert sels == p + [x];
      CategoryTotalsValues(p, c, code);
      CategoryTotalsValuesStep(p, x, c, code);
    }
  }

  lemma CategoryTotalSnocSame(p: seq<SelectedSubscription>, x: SelectedSubscription, code: string)
    ensures CategoryTotal(p + [x], CategoryKey(x.subscription.category), code) ==
              CategoryTotal(p, CategoryKey(x.subscription.category), code) + Contribution(x, code)
  {
    CategoryTotalSnoc(p, x, CategoryKey(x.subscription.category), code);
  }

  lemma CategoryTotalSnocOther(p: seq<SelectedSubscription>, x: SelectedSubscription, c: Category, code: string)
    requires c != x.subscription.category
    ensures CategoryTotal(p + [x], CategoryKey(c), code) == CategoryTotal(p, CategoryKey(c), code)
  {
    CategoryTotalSnoc(p, x, CategoryKey(c), code);
    CategoryKeyInjective(x.subscription.category, c);
  }

  lemma {:induction false} CategoryTotalsValuesStep(p: seq<SelectedSubscription>, x: SelectedSubscription, c: Category, code: string)
    requires Lookup(CategoryTotals(p, code), c) ==
               if c in PricedCategories(p, code) then Some(CategoryTotal(p, CategoryKey(c), code)) else None
    ensures Lookup(CategoryTotals(p + [x], code), c) ==
              if c in PricedCategories(p + [x], code) then Some(CategoryTotal(p + [x], CategoryKey(c), code)) else None
  {
    var acc := CategoryTotals(p, code);
    var v := Contribution(x, code);
    var total := CategoryTotal(p, CategoryKey(c), code);
    CategoryTotalsSnoc(p, x, code);
    PricedCategoriesSnoc(p, x, code);
    if x.subscription.category == c {
      CategoryTotalSnocSame(p, x, code);
      assert CategoryTotal(p + [x], CategoryKey(c), code) == total + v;
      if Priced(x, code) {
        AddToLookup(acc, c, v, c);
        assert CategoryTotals(p + [x], code) == AddTo(acc, c, v);
        assert Lookup(AddTo(acc, c, v), c) == Some(Lookup(acc, c).GetOr(0.0) + v);
        if c !in PricedCategories(p, code) {
          CategoryTotalUnpriced(p, c, code);
        }
        assert Lookup(acc, c).GetOr(0.0) == total;
        assert c in PricedCategories(p + [x], code);
      } else {
        assert v == 0.0;
        assert CategoryTotals(p + [x], code) == acc;
        assert PricedCategories(p + [x], code) == PricedCategories(p, code);
      }
    } else {
      CategoryTotalSnocOther(p, x, c, code);
      if Priced(x, code) {
        AddToLookup(acc, x.subscription.category, v, c);
      }
    }
  }

  /** The chart's subtotals add up to the monthly total. */
  lemma {:induction false} CategoryTotalsSum(sels: seq<SelectedSubscription>, code: string)
    ensures SumValues(CategoryTotals(sels, code)) == TotalMonthly(sels, code)
  {
    if sels != [] {
      CategoryTotalsSum(sels[..|sels| - 1], code);
    }
  }

  /** One chart slice: display name, value and colour of a category. */
  datatype ChartEntry = ChartEntry(name: string, value: real, color: string)

  /** `Object.entries(totals).map(...)`, with the display rounding given as `round`. */
  function ChartEntries(totals: seq<(Category, real)>, round: real -> real): (r: seq<ChartEntry>)
    ensures |r| == |totals|
    ensures forall i :: 0 <= i < |totals| ==>
              r[i] == ChartEntry(CategoryName(CategoryKey(totals[i].0)), round(totals[i].1), CategoryColor(CategoryKey(totals[i].0)))
  {
    if totals == [] then []
    else
      [ChartEntry(CategoryName(CategoryKey(totals[0].0)), round(totals[0].1), CategoryColor(CategoryKey(totals[0].0)))]
      + ChartEntries(totals[1..], round)
  }

  function ChartData(sels: seq<SelectedSubscription>, code: string, round: real -> real): seq<ChartEntry>
  {
    ChartEntries(CategoryTotals(sels, code), round)
  }

  /**
   * The chart has one slice per category with a priced selection, in order of first
   * priced occurrence, and each slice shows its category's (rounded) subtotal.
   */
  lemma ChartDataShape(sels: seq<SelectedSubscription>, code: string, round: real -> real)
    ensures var d := Distinct(PricedCategories(sels, code));
            var chart := ChartData(sels, code, round);
            && |chart| == |d|
            && forall i :: 0 <= i < |d| ==>
                 chart[i] == ChartEntry(CategoryName(CategoryKey(d[i])), round(CategoryTotal(sels, CategoryKey(d[i]), code)),
                                        CategoryColor(CategoryKey(d[i])))
  {
    var totals := CategoryTotals(sels, code);
    var d := Distinct(PricedCategories(sels, code));
    CategoryTotalsKeys(sels, code);
    forall i | 0 <= i < |d|
      ensures totals[i] == (d[i], CategoryTotal(sels, CategoryKey(d[i]), code))
    {
      assert totals[i].0 == Keys(totals)[i] == d[i];
      CategoryTotalsValues(sels, d[i], code);
      LookupUnique(totals, i);
    }
  }

  /** Sum of the values the chart shows. */
  function ChartSum(chart: seq<ChartEntry>): real
  {
    if chart == [] then 0.0 else chart[0].value + ChartSum(chart[1..])
  }

  lemma {:induction false} ChartEntriesSum(totals: seq<(Category, real)>)
    ensures ChartSum(ChartEntries(totals, x => x)) == SumValues(totals)
  {
    if totals != [] {
      ChartEntriesSum(totals[1..]);
      assert ChartEntries(totals, x => x)[1..] == ChartEntries(totals[1..], x => x);
    }
  }

  /** Without display rounding, the chart's slices add up to the monthly total. */
  lemma ChartDataSum(sels: seq<SelectedSubscription>, code: string)
    ensures ChartSum(ChartData(sels, code, x => x)) == TotalMonthly(sels, code)
  {
    CategoryTotalsSum(sels, code);
    ChartEntriesSum(CategoryTotals(sels, code));
  }
}
