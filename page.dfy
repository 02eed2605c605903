/**
 * The page component's own state (app/page.tsx): the active country, the list of
 * selections and the set of expanded categories, and the handlers that replace them.
 */
module Page {
  import opened Catalog
  import opened Selections

  /** The position of the first country with code `code` (`Array.prototype.find`), or |countries|. */
  function FindCountry(countries: seq<Country>, code: string): (r: nat)
    ensures r <= |countries|
    ensures r < |countries| ==> countries[r].code == code
    ensures forall j :: 0 <= j < r ==> countries[j].code != code
  {
    if countries == [] then 0
    else if countries[0].code == code then 0
    else 1 + FindCountry(countries[1..], code)
  }

  /** `countries.find(c => c.code === code) || countries[0]`: an unknown code falls back to the first country. */
  function CountryFor(countries: seq<Country>, code: string): (r: Country)
    requires |countries| > 0
    ensures r in countries
    ensures (exists i :: 0 <= i < |countries| && countries[i].code == code) ==> r.code == code
    ensures (forall i :: 0 <= i < |countries| ==> countries[i].code != code) ==> r == countries[0]
    ensures (exists i :: 0 <= i < |countries| && countries[i].code == code) ==>
              exists i :: 0 <= i < |countries| && r == countries[i] &&
                forall j :: 0 <= j < i ==> countries[j].code != code
  {
    var i := FindCountry(countries, code);
    if i < |countries| then countries[i] else countries[0]
  }

  /** With unique codes, a known code selects the country with that code. */
  lemma CountryForKnown(countries: seq<Country>, i: nat)
    requires i < |countries|
    requires forall a, b :: 0 <= a < b < |countries| ==> countries[a].code != countries[b].code
    ensures CountryFor(countries, countries[i].code) == countries[i]
  {
  }

  /** The set with the membership of `x` flipped. */
  function ToggleMember(s: set<string>, x: string): (r: set<string>)
    ensures x in r <==> x !in s
    ensures forall y :: y != x ==> (y in r <==> y in s)
  {
    if x in s then s - {x} else s + {x}
  }

  /** Toggling the same category twice restores the set. */
  lemma ToggleMemberInvolutive(s: set<string>, x: string)
    ensures ToggleMember(ToggleMember(s, x), x) == s
  {
  }

  /** The seven category keys: every category starts expanded. */
  function AllCategoryKeys(): (r: set<string>)
    ensures forall c :: CategoryKey(c) in r
    ensures forall k :: k in r ==> ParseCategory(k).Some?
  {
    set c | c in AllCategories :: CategoryKey(c)
  }

  class Home {
    var selectedCountry: Country
    var selectedSubscriptions: seq<SelectedSubscription>
    var expandedCategories: set<string>

    /** The list never holds two entries with the same key. */
    ghost predicate Valid()
      reads this
    {
      UniqueKeys(selectedSubscriptions)
    }

    /** The initial state: the first country, nothing selected, every category expanded. */
    constructor ()
      ensures Valid()
      ensures selectedCountry == Countries[0]
      ensures selectedSubscriptions == []
      ensures expandedCategories == AllCategoryKeys()
    {
      selectedCountry := Countries[0];
      selectedSubscriptions := [];
      expandedCategories := AllCategoryKeys();
    }

    /** Copy the set, add or delete the category, and store the copy. */
    method ToggleCategory(category: string)
      requires Valid()
      modifies this
      ensures Valid()
      ensures expandedCategories == ToggleMember(old(expandedCategories), category)
      ensures selectedCountry == old(selectedCountry) && selectedSubscriptions == old(selectedSubscriptions)
    {
      var newExpanded := expandedCategories;
      if category in newExpanded {
        newExpanded := newExpanded - {category};
      } else {
        newExpanded := newExpanded + {category};
      }
      expandedCategories := newExpanded;
    }

    method AddSubscription(subscription: Subscription, plan: SubscriptionPlan)
      requires Valid()
      modifies this
      ensures Valid()
      ensures selectedSubscriptions == Add(old(selectedSubscriptions), subscription, plan)
      ensures selectedCountry == old(selectedCountry) && expandedCategories == old(expandedCategories)
    {
      if !IsSelected(selectedSubscriptions, subscription.id, plan.id) {
        selectedSubscriptions := selectedSubscriptions + [SelectedSubscription(subscription, plan, Monthly)];
      }
    }

    method RemoveSubscription(subscriptionId: string, planId: string)
      requires Valid()
      modifies this
      ensures Valid()
      ensures selectedSubscriptions == Remove(old(selectedSubscriptions), subscriptionId, planId)
      ensures selectedCountry == old(selectedCountry) && expandedCategories == old(expandedCategories)
    {
      RemoveKeepsUniqueKeys(selectedSubscriptions, subscriptionId, planId);
      selectedSubscriptions := Remove(selectedSubscriptions, subscriptionId, planId);
    }

    method ToggleBilling(subscriptionId: string, planId: string)
      requires Valid()
      modifies this
      ensures Valid()
      ensures selectedSubscriptions == Selections.ToggleBilling(old(selectedSubscriptions), subscriptionId, planId)
      ensures selectedCountry == old(selectedCountry) && expandedCategories == old(expandedCategories)
    {
      ToggleBillingKeepsKeys(selectedSubscriptions, subscriptionId, planId, subscriptionId, planId);
      selectedSubscriptions := Selections.ToggleBilling(selectedSubscriptions, subscriptionId, planId);
    }

    /** A plan card's click: remove the plan when it is selected, add it otherwise. */
    method ClickPlan(subscription: Subscription, plan: SubscriptionPlan)
      requires Valid()
      modifies this
      ensures Valid()
      ensures selectedSubscriptions ==
                if IsSelected(old(selectedSubscriptions), subscription.id, plan.id)
                then Remove(old(selectedSubscriptions), subscription.id, plan.id)
                else Add(old(selectedSubscriptions), subscription, plan)
      ensures IsSelected(selectedSubscriptions, subscription.id, plan.id) <==>
                !IsSelected(old(selectedSubscriptions), subscription.id, plan.id)
      ensures !IsSelected(old(selectedSubscriptions), subscription.id, plan.id) ==>
                Remove(selectedSubscriptions, subscription.id, plan.id) == old(selectedSubscriptions)
      ensures selectedCountry == old(selectedCountry) && expandedCategories == old(expandedCategories)
    {
      if IsSelected(selectedSubscriptions, subscription.id, plan.id) {
        RemoveSubscription(subscription.id, plan.id);
      } else {
        RemoveAfterAdd(selectedSubscriptions, subscription, plan);
        AddSubscription(subscription, plan);
      }
    }

    /** The country picker: the country with the chosen code, or the first country. */
    method SelectCountry(code: string)
      requires Valid()
      modifies this
      ensures Valid()
      ensures selectedCountry == CountryFor(Countries, code)
      ensures selectedSubscriptions == old(selectedSubscriptions) && expandedCategories == old(expandedCategories)
    {
      selectedCountry := CountryFor(Countries, code);
    }
  }
}
