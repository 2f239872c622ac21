/**
 * Properties that relate several operations of the subscription contract:
 * the subscribe guard against the access gate, how an entitlement lapses as
 * the creator publishes, and the price round trip.
 */
module Entitlement {
  import opened Options
  import opened Numbers
  import opened Shared
  import opened Profiles
  import opened SubscriptionContract

  // ---------------------------------------------------------------------------
  // Subscribe against access
  // ---------------------------------------------------------------------------

  /**
   * The subscribe guard is the exact complement of the access gate: paying is
   * allowed precisely when a non-owner read would be refused for want of a
   * (current) subscription, and refused with `StillSubscribed` otherwise.
   */
  lemma SubscribeIffNotEntitled(p: ProfileState, signer: AccountId, date: string)
    requires CostKey in p.costs
    ensures AfterSubscribe(p, signer).Ok? <==> !StandingOf(p, signer).Active?
    ensures AfterSubscribe(p, signer).Ok? <==>
      (Access(p, date, false, signer) == Err(NotASubscriber) || Access(p, date, false, signer) == Err(SubscriptionEnded))
    ensures AfterSubscribe(p, signer).Err? ==> AfterSubscribe(p, signer).error == StillSubscribed
  {
    AccessFollowsStanding(p, date, signer);
  }

  /** A profile without a stored price refuses every subscription. */
  lemma SubscribeNeedsPrice(p: ProfileState, signer: AccountId)
    requires CostKey !in p.costs
    ensures AfterSubscribe(p, signer) == Err(CostUnavailable)
  {
  }

  /**
   * A successful subscribe records the current counter for the signer and
   * changes nothing else: other ledger entries, content, price and counter.
   */
  lemma SubscribeRecordsSnapshot(p: ProfileState, signer: AccountId)
    requires AfterSubscribe(p, signer).Ok?
    ensures AfterSubscribe(p, signer).value == Subscribed(p, signer)
    ensures var q := AfterSubscribe(p, signer).value;
      && q.subscribers == p.subscribers[signer := p.contentCount]
      && q.content == p.content && q.costs == p.costs
      && q.contentCount == p.contentCount && q.paymentInterval == p.paymentInterval
  {
  }

  /**
   * Right after a successful subscribe the signer is entitled when the
   * interval is not negative, and already lapsed when it is.
   */
  lemma SubscribeEntitles(p: ProfileState, signer: AccountId, date: string)
    requires AfterSubscribe(p, signer).Ok?
    ensures var q := AfterSubscribe(p, signer).value;
      && (p.paymentInterval >= 0 ==>
           StandingOf(q, signer) == Active(p.contentCount) && Access(q, date, false, signer) == Lookup(p.content, date))
      && (p.paymentInterval < 0 ==>
           StandingOf(q, signer) == Lapsed(p.contentCount) && Access(q, date, false, signer) == Err(SubscriptionEnded))
  {
    var q := AfterSubscribe(p, signer).value;
    AccessFollowsStanding(q, date, signer);
  }

  // ---------------------------------------------------------------------------
  // Publishing
  // ---------------------------------------------------------------------------

  /** The owner calls `add_content` once for every (date, payload) item, in order. */
  function PublishAll(p: ProfileState, items: seq<(string, string)>): Result<ProfileState>
    decreases |items|
  {
    if items == [] then Ok(p)
    else
      match AfterAddContent(p, items[0].0, items[0].1)
      case Err(e) => Err(e)
      case Ok(q) => PublishAll(q, items[1..])
  }

  /** One `add_content` by a creator raises the counter by one and makes the payload readable by the owner. */
  lemma AddContentByCreator(p: ProfileState, date: string, payload: string, owner: AccountId)
    requires p.profileType == Creator
    ensures AfterAddContent(p, date, payload).Ok?
    ensures var q := AfterAddContent(p, date, payload).value;
      && q.contentCount == p.contentCount + 1
      && Access(q, date, true, owner) == Ok(payload)
      && q.subscribers == p.subscribers && q.costs == p.costs && q.paymentInterval == p.paymentInterval
  {
  }

  /** `add_content` on a consumer profile aborts: neither counter nor content moves. */
  lemma AddContentByConsumer(p: ProfileState, date: string, payload: string)
    requires p.profileType == Consumer
    ensures AfterAddContent(p, date, payload) == Err(NotACreator)
  {
  }

  /**
   * Publishing `n` items on a creator profile raises the counter by exactly
   * `n` and leaves the ledger, the price, the interval and the type alone.
   */
  lemma {:induction false} PublishAllAdvancesCounter(p: ProfileState, items: seq<(string, string)>)
    requires p.profileType == Creator
    ensures PublishAll(p, items).Ok?
    ensures var q := PublishAll(p, items).value;
      && q.contentCount == p.contentCount + |items|
      && q.subscribers == p.subscribers && q.costs == p.costs
      && q.paymentInterval == p.paymentInterval && q.profileType == Creator
    decreases |items|
  {
    if items != [] {
      AddContentByCreator(p, items[0].0, items[0].1, "");
      var next := AfterAddContent(p, items[0].0, items[0].1).value;
      PublishAllAdvancesCounter(next, items[1..]);
    }
  }

  /**
   * An entitlement lapses exactly when the counter passes snapshot + interval:
   * a subscriber who paid at counter N may read after `k` further items iff
   * `k <= paymentInterval`, and is told the subscription has ended otherwise.
   */
  lemma LapseExactly(p: ProfileState, signer: AccountId, items: seq<(string, string)>, date: string)
    requires p.profileType == Creator && AfterSubscribe(p, signer).Ok?
    ensures PublishAll(AfterSubscribe(p, signer).value, items).Ok?
    ensures var q := PublishAll(AfterSubscribe(p, signer).value, items).value;
      && StandingOf(q, signer) ==
           (if |items| <= p.paymentInterval then Active(p.contentCount) else Lapsed(p.contentCount))
      && (Access(q, date, false, signer) == Err(SubscriptionEnded) <==> |items| > p.paymentInterval)
  {
    var subscribed := AfterSubscribe(p, signer).value;
    PublishAllAdvancesCounter(subscribed, items);
    var q := PublishAll(subscribed, items).value;
    AccessFollowsStanding(q, date, signer);
  }

  /** Once lapsed, a subscriber stays lapsed however much more is published, until it pays again. */
  lemma LapsedStaysLapsed(p: ProfileState, signer: AccountId, items: seq<(string, string)>)
    requires p.profileType == Creator && StandingOf(p, signer).Lapsed?
    ensures PublishAll(p, items).Ok?
    ensures StandingOf(PublishAll(p, items).value, signer) == StandingOf(p, signer)
  {
    PublishAllAdvancesCounter(p, items);
  }

  /** A lapsed subscriber may pay again, and that payment restores access (for a non-negative interval). */
  lemma ResubscribeAfterLapse(p: ProfileState, signer: AccountId, date: string)
    requires CostKey in p.costs && StandingOf(p, signer).Lapsed? && p.paymentInterval >= 0
    ensures AfterSubscribe(p, signer).Ok?
    ensures Access(AfterSubscribe(p, signer).value, date, false, signer) == Lookup(p.content, date)
  {
    SubscribeIffNotEntitled(p, signer, date);
    SubscribeEntitles(p, signer, date);
  }

  // ---------------------------------------------------------------------------
  // Price
  // ---------------------------------------------------------------------------

  /** `update_cost` fails exactly on an unparsable number or one whose yocto value overflows a `u128`. */
  lemma UpdateCostFailsIff(p: ProfileState, cost: string)
    ensures AfterUpdateCost(p, cost).Err? <==> ParseU128(cost).None? || ParseU128(cost).value > MAX_WHOLE_NEAR
  {
    if ParseU128(cost).Some? {
      ToYoctoDefinedIff(ParseU128(cost).value);
    }
  }

  /** `update_cost` changes only the price: counter, ledger and every standing are untouched. */
  lemma UpdateCostKeepsEntitlements(p: ProfileState, cost: string, account: AccountId, date: string)
    requires AfterUpdateCost(p, cost).Ok?
    ensures var q := AfterUpdateCost(p, cost).value;
      && q.contentCount == p.contentCount && q.subscribers == p.subscribers && q.content == p.content
      && StandingOf(q, account) == StandingOf(p, account)
      && Access(q, date, false, account) == Access(p, date, false, account)
  {
  }

  /** `update_cost(c)` followed by `get_cost()` shows `c` again. */
  lemma UpdateThenGetCost(p: ProfileState, cost: string)
    requires AfterUpdateCost(p, cost).Ok?
    ensures CostDisplay(AfterUpdateCost(p, cost).value) == Ok(FormatDecimal(ParseU128(cost).value))
  {
    YoctoRoundTrip(ParseU128(cost).value);
  }

  /** For a price written in canonical decimal form the round trip returns the very string given. */
  lemma UpdateThenGetCostCanonical(p: ProfileState, near: nat)
    requires near <= MAX_WHOLE_NEAR
    ensures AfterUpdateCost(p, FormatDecimal(near)).Ok?
    ensures CostDisplay(AfterUpdateCost(p, FormatDecimal(near)).value) == Ok(FormatDecimal(near))
  {
    FormatThenParse(near);
    ToYoctoDefinedIff(near);
    YoctoRoundTrip(near);
  }

  // ---------------------------------------------------------------------------
  // Registration
  // ---------------------------------------------------------------------------

  /** A profile written by `add_profile` starts over: no content, nobody subscribed, counter 0. */
  lemma NewProfileStartsOver(args: ProfileArgs, account: AccountId, date: string)
    ensures Wellformed(NewProfile(args))
    ensures StandingOf(NewProfile(args), account) == NeverSubscribed
    ensures Access(NewProfile(args), date, false, account) == Err(NotASubscriber)
    ensures Access(NewProfile(args), date, true, account) == Err(ContentNotFound)
    ensures NewProfile(args).contentCount == 0
  {
  }

  /**
   * Every transition of a profile keeps it well formed and never lowers its
   * counter. The counter is monotone only between registrations: `add_profile`
   * replaces the profile and restarts it at 0 (see `NewProfileStartsOver`).
   */
  lemma TransitionsKeepCounterMonotone(p: ProfileState, signer: AccountId, date: string, payload: string, cost: string)
    requires Wellformed(p)
    ensures AfterSubscribe(p, signer).Ok? ==>
      Wellformed(AfterSubscribe(p, signer).value) && AfterSubscribe(p, signer).value.contentCount == p.contentCount
    ensures AfterAddContent(p, date, payload).Ok? ==>
      Wellformed(AfterAddContent(p, date, payload).value) && AfterAddContent(p, date, payload).value.contentCount == p.contentCount + 1
    ensures AfterUpdateCost(p, cost).Ok? ==>
      Wellformed(AfterUpdateCost(p, cost).value) && AfterUpdateCost(p, cost).value.contentCount == p.contentCount
  {
  }
}
