/**
 * Concrete selections over small catalogs: the totals, the chart and the stats
 * the page shows for them.
 */
module Scenarios {
  import opened Wrappers
  import opened Catalog
  import opened Selections
  import opened Pricing
  import opened Grouping
  import opened Stats
  import opened Page

  const PlanA := SubscriptionPlan("individual", "Individual", map["US" := Price(10.99, Some(131.88), "USD")], [])
  const SubA := Subscription("spotify", "Spotify", "spotify.svg", Music, [PlanA])
  const PlanB := SubscriptionPlan("premium", "Premium", map["US" := Price(8.00, None, "USD")], [])
  const SubB := Subscription("tidal", "Tidal", "tidal.svg", Music, [PlanB])

  /** Two monthly music plans in the US: 10.99 + 8.00 a month, the yearly figure is twelve times that. */
  lemma TwoMonthlyMusicPlans()
    ensures var sels := [SelectedSubscription(SubA, PlanA, Monthly), SelectedSubscription(SubB, PlanB, Monthly)];
            TotalMonthly(sels, "US") == 18.99 && TotalYearly(sels, "US") == 227.88 &&
            CategoryTotals(sels, "US") == [(Music, 18.99)] &&
            GetCategoryStats("music", [SubA, SubB], sels, "US") == CategoryStats(2, 2, 18.99)
  {
    var a, b := SelectedSubscription(SubA, PlanA, Monthly), SelectedSubscription(SubB, PlanB, Monthly);
    assert ItemCost(a, "US") == Some(10.99);
    assert ItemCost(b, "US") == Some(8.00);
    TotalMonthlySnoc([], a, "US");
    TotalMonthlySnoc([a], b, "US");
    assert [a] + [b] == [a, b];
    InCategorySnoc([], a, "music");
    InCategorySnoc([a], b, "music");
    assert InCategory([a, b], "music") == [a, b];
    CategoryTotalsSnoc([], a, "US");
    CategoryTotalsSnoc([a], b, "US");
    PlanCountSnoc([], SubA);
    PlanCountSnoc([SubA], SubB);
    assert [SubA] + [SubB] == [SubA, SubB];
  }

  /** Yearly billing without a yearly price costs the monthly price. */
  lemma YearlyWithoutYearlyPrice()
    ensures TotalMonthly([SelectedSubscription(SubB, PlanB, Yearly)], "US") == 8.00
  {
    var sels := [SelectedSubscription(SubB, PlanB, Yearly)];
    assert sels[..0] == [];
  }

  /** A yearly price of 0 is treated like a missing one. */
  lemma ZeroYearlyIsAbsent()
    ensures MonthlyCost(Price(5.00, Some(0.0), "EUR"), Yearly) == 5.00
    ensures MonthlyCost(Price(5.00, Some(0.0), "EUR"), Yearly) == MonthlyCost(Price(5.00, None, "EUR"), Yearly)
  {
  }

  /** A plan priced only in the US adds nothing in Germany but still counts as selected. */
  lemma UnpricedCountry()
    ensures var sels := [SelectedSubscription(SubA, PlanA, Monthly)];
            TotalMonthly(sels, "DE") == 0.0 && CategoryTotals(sels, "DE") == [] &&
            GetCategoryStats("music", [SubA], sels, "DE") == CategoryStats(1, 1, 0.0)
  {
    var a := SelectedSubscription(SubA, PlanA, Monthly);
    assert ItemCost(a, "DE") == None;
    TotalMonthlySnoc([], a, "DE");
    InCategorySnoc([], a, "music");
    CategoryTotalsSnoc([], a, "DE");
    PlanCountSnoc([], SubA);
  }

  /** The yearly total is twelve monthly payments, not the plan's listed yearly price. */
  lemma YearlyTotalIsNotListedYearly()
    ensures var plan := SubscriptionPlan("p", "P", map["US" := Price(10.0, Some(100.0), "USD")], []);
            var sub := Subscription("s", "S", "s.svg", News, [plan]);
            TotalYearly([SelectedSubscription(sub, plan, Monthly)], "US") == 120.0
  {
    var plan := SubscriptionPlan("p", "P", map["US" := Price(10.0, Some(100.0), "USD")], []);
    var sub := Subscription("s", "S", "s.svg", News, [plan]);
    var sels := [SelectedSubscription(sub, plan, Monthly)];
    assert sels[..0] == [];
  }

  /** Adding the same plan twice keeps one entry; removing it empties the list again. */
  lemma AddTwiceRemoveOnce()
    ensures Add(Add([], SubA, PlanA), SubA, PlanA) == [SelectedSubscription(SubA, PlanA, Monthly)]
    ensures Remove(Add(Add([], SubA, PlanA), SubA, PlanA), "spotify", "individual") == []
  {
    var one := [SelectedSubscription(SubA, PlanA, Monthly)];
    assert Matches(one[0], "spotify", "individual");
  }

  /** The chart's one music slice for the two monthly plans. */
  lemma TwoPlansChart(round: real -> real)
    ensures ChartData([SelectedSubscription(SubA, PlanA, Monthly), SelectedSubscription(SubB, PlanB, Monthly)], "US", round)
            == [ChartEntry("Music", round(18.99), "#06B6D4")]
  {
    TwoMonthlyMusicPlans();
  }

  /** Switching a plan whose yearly price is twelve monthly payments to yearly billing keeps its cost. */
  lemma YearlyEqualsTwelveMonths()
    ensures var sels := Selections.ToggleBilling([SelectedSubscription(SubA, PlanA, Monthly)], "spotify", "individual");
            sels == [SelectedSubscription(SubA, PlanA, Yearly)] && TotalMonthly(sels, "US") == 10.99
  {
    var a := SelectedSubscription(SubA, PlanA, Yearly);
    assert ItemCost(a, "US") == Some(10.99);
    TotalMonthlySnoc([], a, "US");
  }

  /** The country picker over the shipped countries: a known code is found, an unknown one gives the US. */
  lemma CountryPicker()
    ensures CountryFor(Countries, "DE") == Countries[1]
    ensures CountryFor(Countries, "FR") == Countries[0] && Countries[0].code == "US"
  {
    assert Countries[1].code == "DE";
    assert forall i :: 0 <= i < |Countries| ==> Countries[i].code != "FR";
  }
}
