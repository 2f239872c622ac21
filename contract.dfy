/**
 * The subscription contract (contracts/src/lib.rs): a registry from account
 * to profile, with the operations a signer calls on it. The signer is an
 * explicit parameter, a panic is a `Failure`/`Err` result that leaves the
 * state unchanged, and each `Promise::new(..).transfer(..)` is an entry of
 * the ghost `transfers` log.
 */
module SubscriptionContract {
  import opened Options
  import opened Numbers
  import opened Shared
  import opened Profiles

  /** The account the contract is seeded with. */
  const SeededAccount: AccountId := "bob_near"

  /** A payment of `amount` yoctoNEAR to `receiver`. */
  datatype Transfer = Transfer(receiver: AccountId, amount: nat)

  /** The checked arguments of `add_profile`: type, yocto price, payment interval. */
  datatype ProfileArgs = ProfileArgs(profileType: ProfileType, cost: nat, paymentInterval: int)

  /**
   * The argument checks of `add_profile`, in the order the source evaluates
   * them: the cost is parsed and scaled, then the interval is parsed, then the
   * type name is read.
   */
  function ParseProfileArgs(profileType: string, cost: string, paymentInterval: string): (r: Result<ProfileArgs>)
    ensures r.Ok? <==>
      && ParseU128(cost).Some? && ParseU128(cost).value <= MAX_WHOLE_NEAR
      && ParseI32(paymentInterval).Some?
      && ParseProfileType(profileType).Ok?
    ensures r.Ok? ==>
      && ToYocto(ParseU128(cost).value) == Some(r.value.cost)
      && r.value.paymentInterval == ParseI32(paymentInterval).value
      && Ok(r.value.profileType) == ParseProfileType(profileType)
    ensures ParseU128(cost).None? ==> r == Err(InvalidNumber)
  {
    match ParseU128(cost)
    case None => Err(InvalidNumber)
    case Some(near) =>
      ToYoctoDefinedIff(near);
      match ToYocto(near)
      case None => Err(Overflow)
      case Some(yocto) =>
        match ParseI32(paymentInterval)
        case None => Err(InvalidNumber)
        case Some(interval) =>
          match ParseProfileType(profileType)
          case Err(e) => Err(e)
          case Ok(t) => Ok(ProfileArgs(t, yocto, interval))
  }

  /** The profile `add_profile` stores: fresh, whatever was there before. */
  function NewProfile(args: ProfileArgs): (p: ProfileState)
    ensures Wellformed(p) && p.costs[CostKey] == args.cost
    ensures p.content == map[] && p.subscribers == map[]
  {
    ProfileState(args.profileType, map[], map[], map[CostKey := args.cost], 0, args.paymentInterval)
  }

  /**
   * `subscribe` on an existing profile: refused while the signer's snapshot is
   * still within the window, otherwise the ledger records the current counter.
   */
  function AfterSubscribe(p: ProfileState, signer: AccountId): (r: Result<ProfileState>)
    ensures r.Ok? ==> CostKey in p.costs && r.value == Subscribed(p, signer)
    ensures r.Err? ==> r.error in {CostUnavailable, StillSubscribed}
  {
    if CostKey !in p.costs then Err(CostUnavailable)
    else if signer in p.subscribers && !(p.contentCount > p.subscribers[signer] + p.paymentInterval) then
      Err(StillSubscribed)
    else Ok(Subscribed(p, signer))
  }

  /** `add_content` on the signer's profile: the counter advances and the payload is stored, or nothing happens. */
  function AfterAddContent(p: ProfileState, date: string, payload: string): (r: Result<ProfileState>)
    ensures r.Ok? <==> p.profileType == Creator
    ensures r.Ok? ==> r.value.contentCount == p.contentCount + 1 && date in r.value.content && r.value.content[date] == payload
    ensures r.Err? ==> r.error == NotACreator
  {
    ContentAdded(p.(contentCount := p.contentCount + 1), date, payload)
  }

  /** `update_cost` on the signer's profile: parse, scale to yocto, store. */
  function AfterUpdateCost(p: ProfileState, cost: string): (r: Result<ProfileState>)
    ensures r.Ok? ==> CostKey in r.value.costs && r.value.costs[CostKey] % YOCTO_PER_NEAR == 0 && r.value.(costs := p.costs) == p
    ensures r.Err? ==> r.error in {InvalidNumber, Overflow}
  {
    match ParseU128(cost)
    case None => Err(InvalidNumber)
    case Some(near) =>
      match ToYocto(near)
      case None => Err(Overflow)
      case Some(yocto) => Ok(CostUpdated(p, yocto))
  }

  /** `get_cost` on the signer's profile: the stored price in whole NEAR, as a decimal string. */
  function CostDisplay(p: ProfileState): (r: Result<string>)
    ensures r.Ok? <==> CostKey in p.costs
    ensures r.Ok? ==> AllDigits(r.value) && DigitsValue(r.value) == FromYocto(p.costs[CostKey])
    ensures r.Err? ==> r.error == CostUnavailable
  {
    if CostKey in p.costs then Ok(FormatDecimal(FromYocto(p.costs[CostKey]))) else Err(CostUnavailable)
  }

  /**
   * The contract. `data` holds profiles as stored values: reading one yields
   * a fresh `Profile` object, and the model writes the changed object back.
   */
  class Contract {
    var data: map<AccountId, ProfileState>
    /** Every transfer the contract has started, oldest first. */
    ghost var transfers: seq<Transfer>

    /** Every stored profile is well formed. */
    ghost predicate Valid()
      reads this
    {
      forall a :: a in data ==> Wellformed(data[a])
    }

    /** `Contract::default`: only the seeded creator profile, nothing paid yet. */
    constructor Default()
      ensures Valid()
      ensures data == map[SeededAccount := DefaultProfile]
      ensures transfers == []
    {
      var p := new Profile.Default();
      data := map[SeededAccount := p.State()];
      transfers := [];
    }

    /** `get_profile`: a copy of the stored profile; absence is `None`. */
    method GetProfile(account: AccountId) returns (r: Option<Profile>)
      ensures r.Some? <==> account in data
      ensures r.Some? ==> fresh(r.value) && r.value.State() == data[account]
    {
      if account in data {
        var p := new Profile.Load(data[account]);
        r := Some(p);
      } else {
        r := None;
      }
    }

    /** `add_profile`: a fresh profile replaces whatever `account` had; a bad argument aborts. */
    method AddProfile(account: AccountId, profileType: string, cost: string, paymentInterval: string)
      returns (r: Outcome)
      requires Valid()
      modifies this
      ensures Valid()
      ensures transfers == old(transfers)
      ensures match ParseProfileArgs(profileType, cost, paymentInterval)
        case Err(e) => r == Failure(e) && data == old(data)
        case Ok(args) => r == Success && data == old(data)[account := NewProfile(args)]
    {
      var near := ParseU128(cost);
      if near.None? {
        return Failure(InvalidNumber);
      }
      var yocto := ToYocto(near.value);
      if yocto.None? {
        return Failure(Overflow);
      }
      var interval := ParseI32(paymentInterval);
      if interval.None? {
        return Failure(InvalidNumber);
      }
      var kind := ParseProfileType(profileType);
      if kind.Err? {
        return Failure(kind.error);
      }
      var p := new Profile(kind.value, yocto.value, interval.value);
      data := data[account := p.State()];
      r := Success;
    }

    /**
     * `subscribe`: no profile is a silent no-op; a signer still inside its
     * window is refused; otherwise the price is transferred to the creator and
     * the signer's snapshot becomes the current counter.
     */
    method Subscribe(signer: AccountId, creator: AccountId) returns (r: Outcome)
      requires Valid()
      modifies this
      ensures Valid()
      ensures creator !in old(data) ==>
        r == Success && data == old(data) && transfers == old(transfers)
      ensures creator in old(data) ==>
        var p := old(data)[creator];
        match AfterSubscribe(p, signer)
        case Ok(q) =>
          && r == Success
          && data == old(data)[creator := q]
          && transfers == old(transfers) + [Transfer(creator, p.costs[CostKey])]
        case Err(e) =>
          r == Failure(e) && data == old(data) && transfers == old(transfers)
    {
      var found := GetProfile(creator);
      if found.None? {
        return Success;
      }
      var profile := found.value;
      if CostKey !in profile.costs {
        return Failure(CostUnavailable);
      }
      var amount := profile.costs[CostKey];
      var contentCount := profile.contentCount;
      if signer in profile.subscribers && !(contentCount > profile.subscribers[signer] + profile.paymentInterval) {
        return Failure(StillSubscribed);
      }
      // never subscribed, or the window has been overtaken: pay, then record the snapshot
      transfers := transfers + [Transfer(creator, amount)];
      profile.Subscribe(signer);
      data := data[creator := profile.State()];
      r := Success;
    }

    /**
     * `add_content` on the signer's own profile: no profile is a no-op; a
     * creator's counter advances by one and the payload is stored; a
     * consumer's call aborts, which also undoes the counter increment.
     */
    method AddContent(signer: AccountId, date: string, payload: string) returns (r: Outcome)
      requires Valid()
      modifies this
      ensures Valid()
      ensures transfers == old(transfers)
      ensures signer !in old(data) ==> r == Success && data == old(data)
      ensures signer in old(data) ==>
        match AfterAddContent(old(data)[signer], date, payload)
        case Ok(q) => r == Success && data == old(data)[signer := q]
        case Err(e) => r == Failure(e) && data == old(data)
    {
      var found := GetProfile(signer);
      if found.None? {
        return Success;
      }
      var profile := found.value;
      profile.contentCount := profile.contentCount + 1;
      r := profile.AddContent(date, payload);
      if r.Failure? {
        // the panic aborts the call: nothing is written back
        return;
      }
      data := data[signer := profile.State()];
    }

    /** `get_content`: a missing profile aborts; otherwise the entitlement rule decides. */
    method GetContent(signer: AccountId, creator: AccountId, date: string) returns (r: Result<string>)
      ensures creator !in data ==> r == Err(ProfileNotFound)
      ensures creator in data ==> r == Access(data[creator], date, signer == creator, signer)
    {
      var found := GetProfile(creator);
      if found.None? {
        return Err(ProfileNotFound);
      }
      var isOwner := signer == creator;
      r := Access(found.value.State(), date, isOwner, signer);
    }

    /** `get_cost`: the signer's price in whole NEAR. */
    method GetCost(signer: AccountId) returns (r: Result<string>)
      ensures signer !in data ==> r == Err(ProfileNotFound)
      ensures signer in data ==> r == CostDisplay(data[signer])
    {
      var found := GetProfile(signer);
      if found.None? {
        return Err(ProfileNotFound);
      }
      var profile := found.value;
      if CostKey !in profile.costs {
        return Err(CostUnavailable);
      }
      r := Ok(FormatDecimal(profile.costs[CostKey] / YOCTO_PER_NEAR));
    }

    /** `update_cost`: a missing profile aborts first, then a bad or too large number. */
    method UpdateCost(signer: AccountId, cost: string) returns (r: Outcome)
      requires Valid()
      modifies this
      ensures Valid()
      ensures transfers == old(transfers)
      ensures signer !in old(data) ==> r == Failure(ProfileNotFound) && data == old(data)
      ensures signer in old(data) ==>
        match AfterUpdateCost(old(data)[signer], cost)
        case Ok(q) => r == Success && data == old(data)[signer := q]
        case Err(e) => r == Failure(e) && data == old(data)
    {
      var found := GetProfile(signer);
      if found.None? {
        return Failure(ProfileNotFound);
      }
      var profile := found.value;
      var near := ParseU128(cost);
      if near.None? {
        return Failure(InvalidNumber);
      }
      var yocto := ToYocto(near.value);
      if yocto.None? {
        return Failure(Overflow);
      }
      profile.UpdateCost(yocto.value);
      data := data[signer := profile.State()];
      r := Success;
    }
  }

  // ---------------------------------------------------------------------------
  // The unit tests of contracts/src/lib.rs, as client code
  // ---------------------------------------------------------------------------

  /** A consumer profile added for "dan.testnet" has the consumer type and no subscribers. */
  method AddProfileScenario() returns (kind: Option<ProfileType>, ledger: map<AccountId, int>)
    ensures kind == Some(Consumer) && ledger == map[]
  {
    var contract := new Contract.Default();
    var _ := contract.AddProfile("dan.testnet", "consumer", "1", "4");
    var found := contract.GetProfile("dan.testnet");
    kind, ledger := None, map[];
    if found.Some? {
      kind, ledger := Some(found.value.profileType), found.value.subscribers;
    }
  }

  /** "dan.testnet" subscribing to the seeded creator is recorded at counter 1, after one payment of 10 NEAR. */
  method SubscribeScenario() returns (entry: Option<int>, ghost paid: seq<Transfer>)
    ensures entry == Some(1)
    ensures paid == [Transfer(SeededAccount, 10_000_000_000_000_000_000_000_000)]
  {
    var contract := new Contract.Default();
    var _ := contract.Subscribe("dan.testnet", SeededAccount);
    var found := contract.GetProfile(SeededAccount);
    entry := None;
    if found.Some? && "dan.testnet" in found.value.subscribers {
      entry := Some(found.value.subscribers["dan.testnet"]);
    }
    paid := contract.transfers;
  }

  /** An account that never paid cannot read the seeded creator's content. */
  method NonSubscriberScenario() returns (r: Result<string>)
    ensures r == Err(NotASubscriber)
  {
    var contract := new Contract.Default();
    r := contract.GetContent("not_bob_near", SeededAccount, "date");
  }

  /** Right after subscribing, the subscriber reads the seeded content. */
  method SubscriberScenario() returns (r: Result<string>)
    ensures r == Ok("content test")
  {
    var contract := new Contract.Default();
    var _ := contract.Subscribe("dan_testnet", SeededAccount);
    r := contract.GetContent("dan_testnet", SeededAccount, "date");
  }

  /** The seeded creator publishes and reads back its own new item. */
  method CreatorAddsScenario() returns (r: Result<string>)
    ensures r == Ok("content test part 2")
  {
    var contract := new Contract.Default();
    var _ := contract.AddContent(SeededAccount, "date part 2", "content test part 2");
    r := contract.GetContent(SeededAccount, SeededAccount, "date part 2");
  }

  /** A consumer's attempt to publish aborts. */
  method ConsumerAddsScenario() returns (r: Outcome)
    ensures r == Failure(NotACreator)
  {
    var contract := new Contract.Default();
    var _ := contract.AddProfile("consumer", "consumer", "1", "4");
    r := contract.AddContent("consumer", "date part 2", "content test part 2");
  }

  /** A creator registered at 3 NEAR changes its price to 2 NEAR and reads "2" back. */
  method UpdateCostScenario() returns (r: Result<string>)
    ensures r == Ok("2")
  {
    assert ParseU128("3") == Some(3) && ParseU128("2") == Some(2) && ParseI32("4") == Some(4);
    assert FormatDecimal(2) == "2";
    var contract := new Contract.Default();
    var _ := contract.AddProfile("creator", "creator", "3", "4");
    var _ := contract.UpdateCost("creator", "2");
    r := contract.GetCost("creator");
  }
}
