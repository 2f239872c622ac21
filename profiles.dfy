/**
 * A creator's or consumer's profile and the entitlement rule that gates
 * reading its content (contracts/src/data_structures.rs).
 *
 * A profile keeps a `contentCount`, monotone between registrations, and, for every subscriber, the
 * value of that counter when the subscriber last paid (the snapshot). A
 * subscriber may read while at most `paymentInterval` items have been
 * published since its snapshot; the owner may always read.
 */
module Profiles {
  import opened Options
  import opened Shared

  /** The key under which a profile keeps its price in the `costs` map. */
  const CostKey: string := "cost"

  /** The value of a profile's fields. */
  datatype ProfileState = ProfileState(
    profileType: ProfileType,
    content: map<string, string>,
    subscribers: map<AccountId, int>,
    costs: map<string, nat>,
    contentCount: int,
    paymentInterval: int)

  /** What every reachable profile satisfies: a price is stored and the counter is not negative. */
  predicate Wellformed(p: ProfileState) {
    CostKey in p.costs && p.contentCount >= 0
  }

  /** `Profile::default`: the creator profile the contract is seeded with (a price of 10 NEAR). */
  const DefaultProfile: ProfileState := ProfileState(
    Creator,
    map["date" := "content test"],
    map[],
    map[CostKey := 10_000_000_000_000_000_000_000_000],
    1,
    4)

  /**
   * `Profile::get_content`: the owner reads unconditionally; anyone else needs
   * a ledger entry whose snapshot plus the payment interval has not been
   * overtaken by the content counter.
   */
  function Access(p: ProfileState, date: string, isOwner: bool, signer: AccountId): (r: Result<string>)
    ensures r.Ok? ==> date in p.content && r.value == p.content[date]
    ensures r.Err? ==> r.error in {ContentNotFound, SubscriptionEnded, NotASubscriber}
  {
    if isOwner then Lookup(p.content, date)
    else if signer in p.subscribers then
      if p.contentCount <= p.subscribers[signer] + p.paymentInterval then Lookup(p.content, date)
      else Err(SubscriptionEnded)
    else Err(NotASubscriber)
  }

  /** The relation of an account to a profile, recomputed from the counter on every query. */
  datatype Standing = NeverSubscribed | Active(snapshot: int) | Lapsed(snapshot: int)

  /** The number of items published since `account` last paid, if it ever did. */
  function PublishedSince(p: ProfileState, account: AccountId): int
    requires account in p.subscribers
  {
    p.contentCount - p.subscribers[account]
  }

  /** A payment buys a window of `paymentInterval` further items. */
  function StandingOf(p: ProfileState, account: AccountId): (s: Standing)
    ensures s.NeverSubscribed? <==> account !in p.subscribers
    ensures !s.NeverSubscribed? ==> s.snapshot == p.subscribers[account]
  {
    if account !in p.subscribers then NeverSubscribed
    else if PublishedSince(p, account) <= p.paymentInterval then Active(p.subscribers[account])
    else Lapsed(p.subscribers[account])
  }

  /** `Profile::subscribe`: the ledger entry of `signer` becomes the current counter. */
  function Subscribed(p: ProfileState, signer: AccountId): (q: ProfileState)
    ensures q.subscribers.Keys == p.subscribers.Keys + {signer}
    ensures q.subscribers[signer] == p.contentCount
    ensures forall a :: a in p.subscribers && a != signer ==> q.subscribers[a] == p.subscribers[a]
    ensures q.(subscribers := p.subscribers) == p
  {
    p.(subscribers := p.subscribers[signer := p.contentCount])
  }

  /** `Profile::add_content`: a creator stores (or overwrites) the payload under `date`; a consumer is refused. */
  function ContentAdded(p: ProfileState, date: string, payload: string): (r: Result<ProfileState>)
    ensures r.Ok? <==> p.profileType == Creator
    ensures r.Err? ==> r.error == NotACreator
    ensures r.Ok? ==> r.value.content.Keys == p.content.Keys + {date} && r.value.content[date] == payload
    ensures r.Ok? ==> forall d :: d in p.content && d != date ==> r.value.content[d] == p.content[d]
    ensures r.Ok? ==> r.value.(content := p.content) == p
  {
    match p.profileType
    case Creator => Ok(p.(content := p.content[date := payload]))
    case Consumer => Err(NotACreator)
  }

  /** `Profile::update_cost`: only the stored price changes. */
  function CostUpdated(p: ProfileState, cost: nat): (q: ProfileState)
    ensures CostKey in q.costs && q.costs[CostKey] == cost
    ensures forall k :: k in p.costs && k != CostKey ==> k in q.costs && q.costs[k] == p.costs[k]
    ensures q.(costs := p.costs) == p
  {
    p.(costs := p.costs[CostKey := cost])
  }

  // ---------------------------------------------------------------------------
  // Properties of the entitlement rule
  // ---------------------------------------------------------------------------

  /** The owner's read depends on the content alone, whatever the ledger and counter hold. */
  lemma OwnerBypass(p: ProfileState, q: ProfileState, date: string, signer: AccountId, other: AccountId)
    requires p.content == q.content
    ensures Access(p, date, true, signer) == Access(q, date, true, other)
    ensures Access(p, date, true, signer).Ok? <==> date in p.content
  {
  }

  /** A non-owner without a ledger entry is refused, even when the key exists. */
  lemma NonSubscriberRefused(p: ProfileState, date: string, signer: AccountId)
    requires signer !in p.subscribers
    ensures Access(p, date, false, signer) == Err(NotASubscriber)
  {
  }

  /**
   * The non-owner verdict follows the standing: never subscribed and lapsed
   * are refused with their own errors, active reads the content.
   */
  lemma AccessFollowsStanding(p: ProfileState, date: string, signer: AccountId)
    ensures Access(p, date, false, signer) ==
      match StandingOf(p, signer)
      case NeverSubscribed => Err(NotASubscriber)
      case Lapsed(_) => Err(SubscriptionEnded)
      case Active(_) => Lookup(p.content, date)
  {
  }

  /** A subscriber with snapshot `s` passes the gate iff `contentCount <= s + paymentInterval`. */
  lemma GateInclusive(p: ProfileState, date: string, signer: AccountId)
    requires signer in p.subscribers
    ensures Access(p, date, false, signer) != Err(SubscriptionEnded)
        <==> p.contentCount <= p.subscribers[signer] + p.paymentInterval
  {
  }

  // ---------------------------------------------------------------------------
  // The profile object
  // ---------------------------------------------------------------------------

  class Profile {
    var profileType: ProfileType
    var content: map<string, string>
    var subscribers: map<AccountId, int>
    var costs: map<string, nat>
    var contentCount: int
    var paymentInterval: int

    function State(): ProfileState
      reads this
    {
      ProfileState(profileType, content, subscribers, costs, contentCount, paymentInterval)
    }

    /** `Profile::new`: no content, no subscribers, counter 0, the price stored under "cost". */
    constructor (profileType: ProfileType, cost: nat, paymentInterval: int)
      ensures State() == ProfileState(profileType, map[], map[], map[CostKey := cost], 0, paymentInterval)
    {
      this.profileType := profileType;
      this.content := map[];
      this.subscribers := map[];
      this.costs := map[CostKey := cost];
      this.contentCount := 0;
      this.paymentInterval := paymentInterval;
    }

    /** `Profile::default`. */
    constructor Default()
      ensures State() == DefaultProfile
    {
      profileType := Creator;
      content := map["date" := "content test"];
      subscribers := map[];
      costs := map[CostKey := 10_000_000_000_000_000_000_000_000];
      contentCount := 1;
      paymentInterval := 4;
    }

    /** A profile read back from storage: `LookupMap::get` deserialises a copy of the stored value. */
    constructor Load(stored: ProfileState)
      ensures State() == stored
    {
      profileType := stored.profileType;
      content := stored.content;
      subscribers := stored.subscribers;
      costs := stored.costs;
      contentCount := stored.contentCount;
      paymentInterval := stored.paymentInterval;
    }

    /** `Profile::subscribe`, with the signer passed explicitly. */
    method Subscribe(signer: AccountId)
      modifies this
      ensures State() == Subscribed(old(State()), signer)
    {
      subscribers := subscribers[signer := contentCount];
    }

    /** `Profile::add_content`; the consumer's panic leaves the profile unchanged. */
    method AddContent(date: string, payload: string) returns (r: Outcome)
      modifies this
      ensures match ContentAdded(old(State()), date, payload)
        case Ok(q) => r == Success && State() == q
        case Err(e) => r == Failure(e) && State() == old(State())
    {
      match profileType
      case Creator =>
        content := content[date := payload];
        r := Success;
      case Consumer =>
        r := Failure(NotACreator);
    }

    /** `Profile::update_cost`. */
    method UpdateCost(cost: nat)
      modifies this
      ensures State() == CostUpdated(old(State()), cost)
    {
      costs := costs[CostKey := cost];
    }
  }
}
