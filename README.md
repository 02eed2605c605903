# Submerge subscription calculator — a Dafny model

Submerge is a one-page subscription calculator. The user picks a country and selects
plans from a catalog of streaming, music, productivity, gaming, news, fitness and
cloud subscriptions. Each plan is billed monthly or yearly. The page shows:

- the monthly and yearly totals in the country's currency;
- a pie chart of the monthly cost per category;
- the catalog grouped by category, each group with its own statistics.

This project models the state and arithmetic behind that page, and the catalog types
and category lookups it uses:

- `Catalog` (`catalog.dfy`): the data model. It covers countries, and plans priced per
  country code in a partial map, where the yearly price is optional. A subscription
  belongs to one of seven categories, and there is the list of countries.
  `CategoryName` and `CategoryColor` are the two category switches with their defaults.
- `Selections` (`selections.dfy`): the list of selected plans. Entries are keyed by
  (subscription id, plan id). It has the three list operations: find-or-append,
  filter and billing flip.
- `Pricing` (`pricing.dfy`): the cost of one selection and the monthly and yearly
  totals. It also builds the per-category subtotals behind the chart, keyed in
  insertion order like a JavaScript object, and the chart entries.
- `Grouping` (`grouping.dfy`): the catalog partitioned by category.
- `Stats` (`stats.dfy`): the per-category statistics shown on each group header.
- `CategoryOrder` (`category_order.dfy`): association lists keyed by category. They
  model a JavaScript object built by `reduce`, with lookup, key order and
  first-occurrence order.
- `Page` (`page.dfy`): the page component as the class `Home`. Its fields are the
  three pieces of page state: the selected country, the selections and the expanded
  categories. Its methods are the handlers that replace them. The module also has the
  country fallback.
- `Scenarios` (`scenarios.dfy`): concrete selections with the totals, chart and
  statistics they produce.
- `Wrappers` (`wrappers.dfy`): `Option`.

Prices are exact reals, so sums and the division by 12 have no rounding error. The
yearly fallback in app/page.tsx:60, 74 and 109 uses JavaScript's `||`. A yearly price
that is missing *or zero* is therefore replaced by twelve monthly payments. The model
follows that code (`Pricing.YearlyOrDerived`), not the "missing only" reading.

## Model

| member | source | states |
|---|---|---|
| Catalog.ParseCategory | lib/subscriptions.ts:25 | a string parses to a category exactly when it is that category's spelling; otherwise no category is spelled that way |
| Catalog.ParseCategoryKey | lib/subscriptions.ts:25 | parsing a category's spelling gives that category back |
| Catalog.CategoryKeyInjective | lib/subscriptions.ts:25 | different categories have different spellings |
| Catalog.AllCategoriesComplete | lib/subscriptions.ts:25 | exactly seven categories, each listed once, and every category is listed |
| Catalog.PriceFor | lib/subscriptions.ts:8-19 | a plan has a price for a country code exactly when the code is in its pricing map, and it is that entry |
| Catalog.CategoryColor | lib/subscriptions.ts:234-253 | the grey fallback #6B7280 comes out exactly for strings that are no category; CategoryColors gives the colour of each of the seven categories |
| Catalog.CategoryColors | lib/subscriptions.ts:236-249 | the fixed colour of each category: streaming and cloud #8B5CF6, music #06B6D4, productivity #3B82F6, gaming #10B981, news #F59E0B, fitness #EF4444 |
| Catalog.CategoryName | lib/subscriptions.ts:255-273 | a string that is no category is displayed unchanged; the seven display names are pinned by CategoryNames and CategoryNamesDistinct |
| Catalog.CategoryNames | lib/subscriptions.ts:255-270 | the fixed display name of each of the seven categories, e.g. news is "News & Education" and cloud is "Cloud Storage" |
| Catalog.CategoryNamesDistinct | lib/subscriptions.ts:255-270 | the seven display names are pairwise different |
| Catalog.CategoryColorSharing | lib/subscriptions.ts:234-253 | streaming and cloud share #8B5CF6; any other two categories have different colours; no category is grey |
| Catalog.DefaultCountry | lib/subscriptions.ts:29-36 | the country list is non-empty and its first entry is US |
| CategoryOrder.Keys | app/page.tsx:80 | the keys of an association list, position by position |
| CategoryOrder.LookupFound | app/page.tsx:76 | a lookup succeeds exactly for the keys present |
| CategoryOrder.LookupUnique | app/page.tsx:76-80 | with distinct keys, looking up the key at position i gives the value at position i |
| CategoryOrder.Distinct | app/page.tsx:80 | the same categories as the input, none repeated |
| CategoryOrder.FirstIndex | app/page.tsx:80 | the position of the first occurrence of a category |
| CategoryOrder.DistinctOrder | app/page.tsx:80 | the categories without repetition come in order of first occurrence |
| CategoryOrder.FirstIndexOfPrefix | app/page.tsx:76 | appending does not move the first occurrence of a category already present |
| Selections.Flip | app/page.tsx:47 | the other billing interval |
| Selections.Add | app/page.tsx:32-36 | afterwards the plan is selected; the old list is a prefix of the result; the list grows exactly when the plan was not selected, and then by one entry billed monthly at the end; unique keys stay unique |
| Selections.AddIdempotent | app/page.tsx:32-36 | adding the same plan twice is adding it once |
| Selections.Remove | app/page.tsx:38-42 | keeps exactly the entries with another key; the key is no longer selected; removing an absent key changes nothing |
| Selections.RemoveAppend | app/page.tsx:39-41 | the filter distributes over concatenation, so the kept entries stay in their order |
| Selections.RemoveDropsExactlyOne | app/page.tsx:38-42 | with unique keys, removing the key of entry i leaves the list without that entry and nothing else changed |
| Selections.RemoveKeepsUniqueKeys | app/page.tsx:38-42 | removing keeps keys unique |
| Selections.RemoveAfterAdd | app/page.tsx:32-42 | removing a plan that was just added restores the list |
| Selections.ToggleBilling | app/page.tsx:44-50 | same length; subscription and plan unchanged at every position; billing flipped exactly on the entries with the key |
| Selections.ToggleBillingInvolutive | app/page.tsx:44-50 | toggling the same key twice restores the list |
| Selections.ToggleBillingKeepsKeys | app/page.tsx:44-50 | toggling keeps keys unique and does not change which plans are selected |
| Selections.ToggleBillingAbsent | app/page.tsx:44-50 | toggling a key that is not selected changes nothing |
| Pricing.YearlyOrDerived | app/page.tsx:60 | the yearly price, or twelve monthly payments when it is missing or 0; characterized case by case in MonthlyCostCases |
| Pricing.MonthlyCost | app/page.tsx:57-61 | the monthly-equivalent cost of a price under a billing interval, characterized in MonthlyCostCases |
| Pricing.MonthlyCostCases | app/page.tsx:57-61 | monthly billing costs the monthly price; yearly billing costs the yearly price / 12, or the monthly price when the yearly price is missing or 0 |
| Pricing.ItemCost | app/page.tsx:54-61 | no cost exactly when the plan has no price for the country; otherwise the monthly-equivalent cost of that price under the entry's billing |
| Pricing.TotalMonthly | app/page.tsx:52-63 | the `totalMonthly` reduce; characterized by TotalMonthlyAppend, TotalMonthlyExcludesUnpriced and TotalMonthlyOfPriced, and split by category in CategoryTotalsSum and Stats.StatsPartition |
| Pricing.TotalMonthlySnoc | app/page.tsx:52-63 | unfolding lemma: the `totalMonthly` reduce step for an appended selection |
| Pricing.TotalMonthlyAppend | app/page.tsx:52-63 | the monthly total of two concatenated lists is the sum of their totals |
| Pricing.TotalMonthlyExcludesUnpriced | app/page.tsx:54-55 | a selection without a price for the country can be dropped without changing the total |
| Pricing.PricedOnly | app/page.tsx:54-55 | the selections with a price for the country, and only those |
| Pricing.PricedOnlySnoc | app/page.tsx:54-55 | unfolding lemma: the priced-selection filter step for an appended selection |
| Pricing.TotalMonthlyOfPriced | app/page.tsx:52-63 | the total equals the total of the priced selections alone |
| Pricing.TotalYearly | app/page.tsx:65 | `totalMonthly * 12`; TotalYearlyIsSumOfYearlyAmounts and Scenarios.YearlyTotalIsNotListedYearly say what that sum is and is not |
| Pricing.TotalYearlyIsSumOfYearlyAmounts | app/page.tsx:65 | the yearly total (monthly total × 12) is the sum, per priced selection, of 12 monthly prices when billed monthly, or when billed yearly the yearly price (12 monthly prices when that is missing or 0); a listed yearly price of a monthly-billed plan does not enter it |
| Pricing.PricedCategoriesMembers | app/page.tsx:68-70 | a category occurs among the priced selections' categories exactly when some selection of it is priced |
| Pricing.PricedCategoriesSnoc | app/page.tsx:68-70 | unfolding lemma: the priced-category list step for an appended selection |
| Pricing.AddTo | app/page.tsx:76 | adding a value under a key raises the sum of all values by exactly that value |
| Pricing.AddToKeys | app/page.tsx:76 | the keys are unchanged when the key is present, else it is appended at the end |
| Pricing.AddToLookup | app/page.tsx:76 | the key's value becomes its old value (0 when absent) plus the amount; other keys keep theirs |
| Pricing.CategoryTotals | app/page.tsx:68-78 | the `categoryTotals` record; its keys are given by CategoryTotalsKeys, its values by CategoryTotalsValues and their sum by CategoryTotalsSum |
| Pricing.InCategory | app/page.tsx:99 | its own contract only bounds the filter's length; InCategoryMembers states which selections it keeps and InCategorySnoc their order |
| Pricing.InCategoryMembers | app/page.tsx:99 | the filter keeps exactly the selections whose category is the given string |
| Pricing.InCategorySnoc | app/page.tsx:99 | unfolding lemma: the category filter step for an appended selection |
| Pricing.CategoryTotal | app/page.tsx:101-112 | one category's subtotal; characterized by CategoryTotalSnoc and CategoryTotalUnpriced, and equal to the chart value by Stats.StatsMatchChart |
| Pricing.CategoryTotalSnoc | app/page.tsx:101-112 | appending a selection adds its contribution to its own category's subtotal and nothing to the others |
| Pricing.CategoryTotalUnpriced | app/page.tsx:101-112 | a category without priced selections has subtotal 0 |
| Pricing.CategoryTotalsSnoc | app/page.tsx:68-78 | unfolding lemma: the `categoryTotals` reduce step; a priced selection adds its cost under its category, an unpriced one is skipped |
| Pricing.CategoryTotalsKeys | app/page.tsx:67-79 | the record's keys are the categories of the priced selections, each once, in order of first priced occurrence |
| Pricing.CategoryTotalsValues | app/page.tsx:68-78 | the record's value for a category is that category's subtotal of monthly costs, and it is absent when the category has no priced selection |
| Pricing.CategoryTotalsSum | app/page.tsx:68-78 | the record's values sum to the monthly total |
| Pricing.ChartEntries | app/page.tsx:80-84 | one entry per record key, in key order, with the category's display name, its rounded value and its colour |
| Pricing.ChartEntriesSum | app/page.tsx:80-84 | without rounding, the entries' values sum to the record's values |
| Pricing.ChartData | app/page.tsx:67-85 | the `chartData` list; ChartDataShape gives its length, order and every entry, ChartDataSum the sum of its values |
| Pricing.ChartDataShape | app/page.tsx:67-85 | one chart entry per category with a priced selection, in order of first priced occurrence; each carries the category's name, colour and rounded subtotal |
| Pricing.ChartDataSum | app/page.tsx:67-85 | without rounding, the chart's values add up to the monthly total |
| Grouping.OfCategory | app/page.tsx:88-94 | a category's group holds exactly the catalog's subscriptions of that category, and is no longer than the catalog |
| Grouping.OfCategorySnoc | app/page.tsx:92 | unfolding lemma: the group step for an appended subscription |
| Grouping.CategoriesOfSnoc | app/page.tsx:88-94 | unfolding lemma: the category list step for an appended subscription |
| Grouping.CategoriesOfMembers | app/page.tsx:88-94 | a category occurs exactly when some catalog subscription has it |
| Grouping.OfCategoryAbsent | app/page.tsx:88-94 | a category no subscription has gets an empty group |
| Grouping.PlanCountSnoc | app/page.tsx:100 | unfolding lemma: the `totalCount` reduce step for an appended subscription |
| Grouping.PlanCount | app/page.tsx:100 | the `totalCount` reduce; characterized by PlanCountSnoc and related to the groups by GroupedSubscriptions and Stats.GroupStats |
| Grouping.PushTo | app/page.tsx:89-92 | one push holds exactly one more subscription and its plans |
| Grouping.PushToKeys | app/page.tsx:89-91 | a new category is appended as a key; an existing one keeps the key order |
| Grouping.PushToLookup | app/page.tsx:89-92 | the subscription is appended to its category's group (created empty when new); other groups are unchanged |
| Grouping.GroupedSnoc | app/page.tsx:87-95 | unfolding lemma: the `groupedSubscriptions` reduce step for an appended subscription |
| Grouping.GroupedSubscriptions | app/page.tsx:87-95 | the groups hold exactly as many subscriptions and plans as the catalog; the group order is given by GroupedKeys and their contents by GroupedValues |
| Grouping.GroupedKeys | app/page.tsx:87-95 | the groups come in order of the categories' first occurrence in the catalog, each once |
| Grouping.GroupedValues | app/page.tsx:87-95 | a category's group is its subscriptions in catalog order, present exactly when the category occurs |
| Grouping.GroupedEntry | app/page.tsx:87-95 | each group holds its category's subscriptions in catalog order |
| Grouping.SubscriptionInOneGroup | app/page.tsx:87-95 | every catalog subscription is in the group of its category and in no other |
| Stats.GetCategoryStats | app/page.tsx:98-115 | its own contract only bounds the selected count by the number of selections; StatsPartition, StatsMatchChart, GroupStats and StatsOfUnknownCategory characterize its three fields |
| Stats.SumsOverSnoc | app/page.tsx:99-112 | over distinct categories, appending a selection adds its contribution and one count exactly when its category is among them |
| Stats.SumsOverNothing | app/page.tsx:99-112 | no selections give zero counts and zero subtotals |
| Stats.StatsPartition | app/page.tsx:98-115 | over the seven categories, the subtotals add up to the monthly total and the selected counts to the number of selections, priced or not |
| Stats.StatsMatchChart | app/page.tsx:101-112 | a category's subtotal equals its chart value before rounding, and 0 when it has none |
| Stats.GroupStats | app/page.tsx:100 | for a group from the grouping, the total count is the number of plans of its category's subscriptions |
| Stats.StatsOfUnknownCategory | app/page.tsx:99-112 | a string that is no category counts no selections and has subtotal 0 |
| Page.FindCountry | app/page.tsx:153 | the position of the first country with the code, or the list's length when none has it |
| Page.CountryFor | app/page.tsx:153 | a country of the list: the first one with the code when there is one, otherwise the first of the list |
| Page.CountryForKnown | app/page.tsx:153 | with unique codes, a listed code selects exactly its country |
| Page.ToggleMember | app/page.tsx:22-30 | membership of the given category is flipped, and only that |
| Page.ToggleMemberInvolutive | app/page.tsx:22-30 | toggling the same category twice restores the set |
| Page.AllCategoryKeys | app/page.tsx:18-20 | every category's spelling is in the set, and only category spellings are |
| Page.Home.constructor | app/page.tsx:16-20 | the first country, no selections, all seven categories expanded, keys unique |
| Page.Home.ToggleCategory | app/page.tsx:22-30 | the expanded set becomes the old set with the category toggled; nothing else changes |
| Page.Home.AddSubscription | app/page.tsx:32-36 | the selections become the find-or-append of the plan; keys stay unique; nothing else changes |
| Page.Home.RemoveSubscription | app/page.tsx:38-42 | the selections become the filtered list; keys stay unique; nothing else changes |
| Page.Home.ToggleBilling | app/page.tsx:44-50 | the selections become the list with the plan's billing flipped; keys stay unique; nothing else changes |
| Page.Home.ClickPlan | app/page.tsx:258-274 | the selections become the filtered list when the plan was selected, else its find-or-append; so the plan's selection flips, and a click on an unselected plan is undone by removing it; nothing else changes |
| Page.Home.SelectCountry | app/page.tsx:150-154 | the selected country becomes the one with the chosen code, or the first one; nothing else changes |
| Scenarios.TwoMonthlyMusicPlans | app/page.tsx:52-115 | two monthly US music plans at 10.99 and 8.00 total 18.99 a month and 227.88 a year; one music subtotal of 18.99; stats 2 selected of 2 plans |
| Scenarios.YearlyWithoutYearlyPrice | app/page.tsx:60 | yearly billing without a yearly price costs the monthly price |
| Scenarios.ZeroYearlyIsAbsent | app/page.tsx:60 | a yearly price of 0 costs the same as a missing one |
| Scenarios.UnpricedCountry | app/page.tsx:54-55 | a plan priced only in the US adds 0 in Germany and has no chart slice, yet it counts as selected |
| Scenarios.YearlyTotalIsNotListedYearly | app/page.tsx:65 | a monthly-billed plan at 10.00 with a listed yearly price of 100.00 makes the yearly total 120.00 |
| Scenarios.AddTwiceRemoveOnce | app/page.tsx:32-42 | adding a plan twice gives one entry, and removing it empties the list |
| Scenarios.TwoPlansChart | app/page.tsx:67-85 | the chart for the two music plans is one "Music" slice coloured #06B6D4 |
| Scenarios.YearlyEqualsTwelveMonths | app/page.tsx:44-50 | switching a plan at 10.99 a month or 131.88 a year to yearly billing keeps its monthly cost at 10.99 |
| Scenarios.CountryPicker | app/page.tsx:153 | over the shipped countries, "DE" selects Germany and an unknown code selects the US |

## Left out

- Rendering: JSX, framer-motion animation, the recharts pie chart and legend, and lucide icons are presentation only. `expandedCategories` is modelled as state, but its only reader decides what is drawn (app/page.tsx:176).
- Pricing.ChartData: `Number(value.toFixed(2))` (app/page.tsx:82) is IEEE-754 rounding through a decimal string. The model takes the rounding as a parameter `round` and proves facts about the unrounded values.
- Prices are exact reals, not IEEE-754 doubles. Float rounding in the sums and the division by 12 is not modelled.
- `toFixed(2)` formatting of the totals, subtotals and prices shown on the page is string formatting and is left out.
- The per-row cost in the "Active Subscriptions" list (app/page.tsx:504-507) is left out. Its optional chaining yields `undefined`/`NaN` for a missing price, which is display only.
- React `useState`/`useMemo` are left out. Memoisation does not change results. Each setter is modelled as a field assignment in a `Home` method.
- Page.Home.ClickPlan: the source's billing button also stops the click from reaching the card (`stopPropagation`, app/page.tsx:326). Event propagation is not modelled.
- The catalog's numeric entries (lib/subscriptions.ts:38-232) are static data. The model is generic over any catalog; `Scenarios` uses small catalogs of its own.
- app/layout.tsx only loads fonts and sets page metadata, and is left out.
- Stats.GetCategoryStats: its category is a string, as in the source. Its statistics for a real category are proved through that category's spelling, and for any other string by Stats.StatsOfUnknownCategory.
- The chart record's keys are `Category` values. Non-numeric string keys of a JavaScript object keep insertion order, and `CategoryOrder` models that order.
