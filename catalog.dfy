/**
 * The catalog's data model and its two category lookups (lib/subscriptions.ts):
 * countries, plans priced per country, subscriptions in one of seven categories.
 */
module Catalog {
  import opened Wrappers

  datatype Country = Country(code: string, name: string, currency: string, symbol: string)

  /** A plan's price in one country; the yearly price is optional. */
  datatype Price = Price(monthly: real, yearly: Option<real>, currency: string)

  /** `pricing` is a partial map: a plan need not be priced in every country. */
  datatype SubscriptionPlan = SubscriptionPlan(
    id: string,
    name: string,
    pricing: map<string, Price>,
    features: seq<string>)

  /** The closed set of seven categories a subscription belongs to. */
  datatype Category = Streaming | Music | Productivity | Gaming | News | Fitness | Cloud

  datatype Subscription = Subscription(
    id: string,
    name: string,
    logo: string,
    category: Category,
    plans: seq<SubscriptionPlan>)

  const AllCategories: seq<Category> := [Streaming, Music, Productivity, Gaming, News, Fitness, Cloud]

  /** The countries offered, in display order; the first one is the default. */
  const Countries: seq<Country> := [
    Country("US", "United States", "USD", "$"),
    Country("DE", "Germany", "EUR", "€"),
    Country("GB", "United Kingdom", "GBP", "£"),
    Country("CH", "Switzerland", "CHF", "CHF"),
    Country("JP", "Japan", "JPY", "¥"),
    Country("AU", "Australia", "AUD", "A$")
  ]

  /** The string a category is spelled as in the catalog. */
  function CategoryKey(c: Category): string
  {
    match c
    case Streaming => "streaming"
    case Music => "music"
    case Productivity => "productivity"
    case Gaming => "gaming"
    case News => "news"
    case Fitness => "fitness"
    case Cloud => "cloud"
  }

  /** The category a string spells, if any: the inverse of CategoryKey. */
  function ParseCategory(s: string): (r: Option<Category>)
    ensures r.Some? ==> CategoryKey(r.value) == s
    ensures r.None? ==> forall c: Category :: CategoryKey(c) != s
  {
    if s == "streaming" then Some(Streaming)
    else if s == "music" then Some(Music)
    else if s == "productivity" then Some(Productivity)
    else if s == "gaming" then Some(Gaming)
    else if s == "news" then Some(News)
    else if s == "fitness" then Some(Fitness)
    else if s == "cloud" then Some(Cloud)
    else None
  }

  lemma ParseCategoryKey(c: Category)
    ensures ParseCategory(CategoryKey(c)) == Some(c)
  {
  }

  /** Distinct categories are spelled differently. */
  lemma CategoryKeyInjective(a: Category, b: Category)
    ensures CategoryKey(a) == CategoryKey(b) ==> a == b
  {
    ParseCategoryKey(a);
    ParseCategoryKey(b);
  }

  lemma AllCategoriesComplete(c: Category)
    ensures c in AllCategories
    ensures |AllCategories| == 7
    ensures forall i, j :: 0 <= i < j < |AllCategories| ==> AllCategories[i] != AllCategories[j]
  {
  }

  /** The price of `plan` in the country with code `code`, if it has one. */
  function PriceFor(plan: SubscriptionPlan, code: string): (r: Option<Price>)
    ensures r.Some? <==> code in plan.pricing
    ensures r.Some? ==> r.value == plan.pricing[code]
  {
    if code in plan.pricing then Some(plan.pricing[code]) else None
  }

  const UnknownColor := "#6B7280"

  /** The chart colour of a category; any other string gets the grey fallback. */
  function CategoryColor(category: string): (r: string)
    ensures r == UnknownColor <==> ParseCategory(category).None?
  {
    if category == "streaming" then "#8B5CF6"
    else if category == "music" then "#06B6D4"
    else if category == "productivity" then "#3B82F6"
    else if category == "gaming" then "#10B981"
    else if category == "news" then "#F59E0B"
    else if category == "fitness" then "#EF4444"
    else if category == "cloud" then "#8B5CF6"
    else UnknownColor
  }

  /** The display name of a category; any other string is shown as it is. */
  function CategoryName(category: string): (r: string)
    ensures ParseCategory(category).None? ==> r == category
  {
    if category == "streaming" then "Streaming"
    else if category == "music" then "Music"
    else if category == "productivity" then "Productivity"
    else if category == "gaming" then "Gaming"
    else if category == "news" then "News & Education"
    else if category == "fitness" then "Fitness"
    else if category == "cloud" then "Cloud Storage"
    else category
  }

  /** The display name of each of the seven categories. */
  lemma CategoryNames()
    ensures CategoryName(CategoryKey(Streaming)) == "Streaming"
    ensures CategoryName(CategoryKey(Music)) == "Music"
    ensures CategoryName(CategoryKey(Productivity)) == "Productivity"
    ensures CategoryName(CategoryKey(Gaming)) == "Gaming"
    ensures CategoryName(CategoryKey(News)) == "News & Education"
    ensures CategoryName(CategoryKey(Fitness)) == "Fitness"
    ensures CategoryName(CategoryKey(Cloud)) == "Cloud Storage"
  {
  }

  /** The chart colour of each of the seven categories. */
  lemma CategoryColors()
    ensures CategoryColor(CategoryKey(Streaming)) == "#8B5CF6"
    ensures CategoryColor(CategoryKey(Music)) == "#06B6D4"
    ensures CategoryColor(CategoryKey(Productivity)) == "#3B82F6"
    ensures CategoryColor(CategoryKey(Gaming)) == "#10B981"
    ensures CategoryColor(CategoryKey(News)) == "#F59E0B"
    ensures CategoryColor(CategoryKey(Fitness)) == "#EF4444"
    ensures CategoryColor(CategoryKey(Cloud)) == "#8B5CF6"
  {
  }

  /** The seven display names are pairwise different. */
  lemma CategoryNamesDistinct(a: Category, b: Category)
    ensures CategoryName(CategoryKey(a)) == CategoryName(CategoryKey(b)) ==> a == b
  {
  }

  /**
   * Colours are not injective: streaming and cloud share purple; every other pair
   * of categories differs, and no category is grey.
   */
  lemma CategoryColorSharing(a: Category, b: Category)
    ensures CategoryColor(CategoryKey(Streaming)) == CategoryColor(CategoryKey(Cloud)) == "#8B5CF6"
    ensures CategoryColor(CategoryKey(a)) == CategoryColor(CategoryKey(b)) <==>
              a == b || {a, b} == {Streaming, Cloud}
    ensures CategoryColor(CategoryKey(a)) != UnknownColor
  {
  }

  /** The default country is the first in the list, the United States. */
  lemma DefaultCountry()
    ensures |Countries| > 0 && Countries[0].code == "US"
  {
  }
}
