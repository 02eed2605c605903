/**
 * The list of selected subscriptions (app/page.tsx): entries
 * (subscription, plan, billing) keyed by (subscription id, plan id), and the
 * three list operations the page's handlers apply to it.
 */
module Selections {
  import opened Catalog

  datatype Billing = Monthly | Yearly

  datatype SelectedSubscription = SelectedSubscription(
    subscription: Subscription,
    plan: SubscriptionPlan,
    billing: Billing)

  /** The other billing interval. */
  function Flip(b: Billing): (r: Billing)
    ensures r != b
  {
    if b == Monthly then Yearly else Monthly
  }

  /** Whether `s` is the entry with key (subscriptionId, planId). */
  predicate Matches(s: SelectedSubscription, subscriptionId: string, planId: string)
  {
    s.subscription.id == subscriptionId && s.plan.id == planId
  }

  /** Whether the list has an entry with key (subscriptionId, planId) (the page's `find`). */
  predicate IsSelected(sels: seq<SelectedSubscription>, subscriptionId: string, planId: string)
  {
    exists i :: 0 <= i < |sels| && Matches(sels[i], subscriptionId, planId)
  }

  /** No two entries share a key. */
  ghost predicate UniqueKeys(sels: seq<SelectedSubscription>)
  {
    forall i, j :: 0 <= i < j < |sels| ==> !Matches(sels[j], sels[i].subscription.id, sels[i].plan.id)
  }

  /**
   * Find-or-append: a plan already selected leaves the list as it is; otherwise
   * it is appended, billed monthly.
   */
  function Add(sels: seq<SelectedSubscription>, subscription: Subscription, plan: SubscriptionPlan)
    : (r: seq<SelectedSubscription>)
    ensures IsSelected(r, subscription.id, plan.id)
    ensures sels <= r && |r| <= |sels| + 1
    ensures |r| == |sels| <==> IsSelected(sels, subscription.id, plan.id)
    ensures |r| == |sels| + 1 ==> r[|sels|] == SelectedSubscription(subscription, plan, Monthly)
    ensures UniqueKeys(sels) ==> UniqueKeys(r)
  {
    if IsSelected(sels, subscription.id, plan.id) then sels
    else
      var r := sels + [SelectedSubscription(subscription, plan, Monthly)];
      assert Matches(r[|sels|], subscription.id, plan.id);
      r
  }

  /** Adding twice is adding once. */
  lemma AddIdempotent(sels: seq<SelectedSubscription>, subscription: Subscription, plan: SubscriptionPlan)
    ensures Add(Add(sels, subscription, plan), subscription, plan) == Add(sels, subscription, plan)
  {
  }

  /** The filter that drops every entry with key (subscriptionId, planId). */
  function Remove(sels: seq<SelectedSubscription>, subscriptionId: string, planId: string)
    : (r: seq<SelectedSubscription>)
    ensures forall x :: x in r <==> x in sels && !Matches(x, subscriptionId, planId)
    ensures !IsSelected(r, subscriptionId, planId)
    ensures |r| <= |sels|
    ensures !IsSelected(sels, subscriptionId, planId) ==> r == sels
  {
    if sels == [] then []
    else
      var rest := Remove(sels[1..], subscriptionId, planId);
      assert !IsSelected(sels, subscriptionId, planId) ==> !IsSelected(sels[1..], subscriptionId, planId) by {
        if IsSelected(sels[1..], subscriptionId, planId) {
          var i :| 0 <= i < |sels[1..]| && Matches(sels[1..][i], subscriptionId, planId);
          assert Matches(sels[i + 1], subscriptionId, planId);
        }
      }
      if Matches(sels[0], subscriptionId, planId) then rest
      else
        var r := [sels[0]] + rest;
        assert forall i :: 0 < i < |r| ==> r[i] == rest[i - 1];
        r
  }

  /** Removing distributes over concatenation: the entries kept stay in order. */
  lemma {:induction false} RemoveAppend(a: seq<SelectedSubscription>, b: seq<SelectedSubscription>, subscriptionId: string, planId: string)
    ensures Remove(a + b, subscriptionId, planId) == Remove(a, subscriptionId, planId) + Remove(b, subscriptionId, planId)
  {
    if a != [] {
      assert (a + b)[1..] == a[1..] + b;
      RemoveAppend(a[1..], b, subscriptionId, planId);
    } else {
      assert a + b == b;
    }
  }

  /** With unique keys, removing the key of entry i drops exactly that entry. */
  lemma {:induction false} RemoveDropsExactlyOne(sels: seq<SelectedSubscription>, i: nat)
    requires UniqueKeys(sels)
    requires i < |sels|
    ensures Remove(sels, sels[i].subscription.id, sels[i].plan.id) == sels[..i] + sels[i + 1..]
  {
    var sid, pid := sels[i].subscription.id, sels[i].plan.id;
    if i == 0 {
      forall k | 0 <= k < |sels[1..]|
        ensures !Matches(sels[1..][k], sid, pid)
      {
        assert sels[1..][k] == sels[k + 1];
      }
    } else {
      assert !Matches(sels[0], sid, pid);
      UniqueKeysTail(sels);
      RemoveDropsExactlyOne(sels[1..], i - 1);
      assert sels[1..][i - 1] == sels[i];
      assert sels[..i] == [sels[0]] + sels[1..][..i - 1];
      assert sels[i + 1..] == sels[1..][i..];
    }
  }

  /** The tail of a list with unique keys has unique keys, none of them the head's. */
  lemma UniqueKeysTail(sels: seq<SelectedSubscription>)
    requires UniqueKeys(sels) && sels != []
    ensures UniqueKeys(sels[1..])
    ensures forall x :: x in sels[1..] ==> !Matches(x, sels[0].subscription.id, sels[0].plan.id)
  {
    forall a, b | 0 <= a < b < |sels[1..]|
      ensures !Matches(sels[1..][b], sels[1..][a].subscription.id, sels[1..][a].plan.id)
    {
      assert sels[1..][a] == sels[a + 1] && sels[1..][b] == sels[b + 1];
    }
    forall x | x in sels[1..]
      ensures !Matches(x, sels[0].subscription.id, sels[0].plan.id)
    {
      var k :| 0 <= k < |sels[1..]| && sels[1..][k] == x;
      assert sels[k + 1] == x;
    }
  }

  /** An entry whose key no entry of `rest` has can be put in front of `rest`. */
  lemma UniqueKeysCons(x: SelectedSubscription, rest: seq<SelectedSubscription>)
    requires UniqueKeys(rest)
    requires forall y :: y in rest ==> !Matches(y, x.subscription.id, x.plan.id)
    ensures UniqueKeys([x] + rest)
  {
    var r := [x] + rest;
    forall a, b | 0 <= a < b < |r|
      ensures !Matches(r[b], r[a].subscription.id, r[a].plan.id)
    {
      assert r[b] == rest[b - 1];
      if a > 0 {
        assert r[a] == rest[a - 1];
      }
    }
  }

  /** Removing keeps keys unique. */
  lemma {:induction false} RemoveKeepsUniqueKeys(sels: seq<SelectedSubscription>, subscriptionId: string, planId: string)
    requires UniqueKeys(sels)
    ensures UniqueKeys(Remove(sels, subscriptionId, planId))
  {
    if sels != [] {
      UniqueKeysTail(sels);
      RemoveKeepsUniqueKeys(sels[1..], subscriptionId, planId);
      if !Matches(sels[0], subscriptionId, planId) {
        UniqueKeysCons(sels[0], Remove(sels[1..], subscriptionId, planId));
      }
    }
  }

  /** Removing a plan just added restores the list. */
  lemma RemoveAfterAdd(sels: seq<SelectedSubscription>, subscription: Subscription, plan: SubscriptionPlan)
    requires !IsSelected(sels, subscription.id, plan.id)
    ensures Remove(Add(sels, subscription, plan), subscription.id, plan.id) == sels
  {
    var x := SelectedSubscription(subscription, plan, Monthly);
    RemoveAppend(sels, [x], subscription.id, plan.id);
    assert Remove([x], subscription.id, plan.id) == [];
  }

  /** The entry with its billing interval flipped when it has the given key. */
  function ToggleOne(s: SelectedSubscription, subscriptionId: string, planId: string): SelectedSubscription
  {
    if Matches(s, subscriptionId, planId) then s.(billing := Flip(s.billing)) else s
  }

  /**
   * The map that flips billing on the entry with key (subscriptionId, planId):
   * same length and order, every other entry unchanged, keys unchanged.
   */
  function ToggleBilling(sels: seq<SelectedSubscription>, subscriptionId: string, planId: string)
    : (r: seq<SelectedSubscription>)
    ensures |r| == |sels|
    ensures forall i :: 0 <= i < |sels| ==>
              r[i].subscription == sels[i].subscription && r[i].plan == sels[i].plan
    ensures forall i :: 0 <= i < |sels| ==>
              r[i].billing == if Matches(sels[i], subscriptionId, planId) then Flip(sels[i].billing) else sels[i].billing
  {
    if sels == [] then []
    else [ToggleOne(sels[0], subscriptionId, planId)] + ToggleBilling(sels[1..], subscriptionId, planId)
  }

  /** Toggling the same key twice restores the list. */
  lemma ToggleBillingInvolutive(sels: seq<SelectedSubscription>, subscriptionId: string, planId: string)
    ensures ToggleBilling(ToggleBilling(sels, subscriptionId, planId), subscriptionId, planId) == sels
  {
    var r := ToggleBilling(ToggleBilling(sels, subscriptionId, planId), subscriptionId, planId);
    assert forall i :: 0 <= i < |sels| ==> r[i] == sels[i];
  }

  /** Toggling keeps the keys, hence their uniqueness and what is selected. */
  lemma ToggleBillingKeepsKeys(sels: seq<SelectedSubscription>, subscriptionId: string, planId: string, sid: string, pid: string)
    ensures UniqueKeys(sels) ==> UniqueKeys(ToggleBilling(sels, subscriptionId, planId))
    ensures IsSelected(ToggleBilling(sels, subscriptionId, planId), sid, pid) <==> IsSelected(sels, sid, pid)
  {
    var r := ToggleBilling(sels, subscriptionId, planId);
    assert forall i :: 0 <= i < |sels| ==> (Matches(r[i], sid, pid) <==> Matches(sels[i], sid, pid));
  }

  /** Toggling a key that is not selected changes nothing. */
  lemma ToggleBillingAbsent(sels: seq<SelectedSubscription>, subscriptionId: string, planId: string)
    requires !IsSelected(sels, subscriptionId, planId)
    ensures ToggleBilling(sels, subscriptionId, planId) == sels
  {
    var r := ToggleBilling(sels, subscriptionId, planId);
    assert forall i :: 0 <= i < |sels| ==> r[i] == sels[i];
  }
}
