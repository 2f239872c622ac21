/**
 * The earlier version of the contract (src/lib.rs). A profile keeps a type,
 * a content map and a plain set of subscribers; reading needs membership of
 * that set, with no owner bypass, no price and no payment interval. The
 * signer is an explicit parameter and a panic is an `Err`/`Failure` result
 * that leaves the state unchanged.
 */
module EarlySubscription {
  import opened Options
  import opened Shared

  /** The account the contract is seeded with. */
  const SeededAccount: AccountId := "bob_near"

  /** The value of an early profile's fields. */
  datatype ProfileState = ProfileState(
    profileType: ProfileType,
    content: map<string, string>,
    subscribers: set<AccountId>)

  /** `Profile::default`: the seeded creator, already a member of its own subscriber set. */
  const DefaultProfile: ProfileState := ProfileState(
    Creator,
    map["date" := "content test"],
    {SeededAccount})

  /** `Profile::get_content`: members read the payload under `date`; everyone else is refused. */
  function Access(p: ProfileState, date: string, signer: AccountId): (r: Result<string>)
    ensures r.Ok? ==> date in p.content && r.value == p.content[date]
    ensures r.Err? ==> r.error in {ContentNotFound, NotASubscriber}
  {
    if signer in p.subscribers then Lookup(p.content, date) else Err(NotASubscriber)
  }

  /** `Profile::subscribe`: `signer` joins the subscriber set. */
  function Joined(p: ProfileState, signer: AccountId): (q: ProfileState)
    ensures q.subscribers == p.subscribers + {signer}
    ensures q.(subscribers := p.subscribers) == p
  {
    p.(subscribers := p.subscribers + {signer})
  }

  /** `Profile::add_content`: the payload is stored under `date`, whatever the profile type. */
  function Stored(p: ProfileState, date: string, payload: string): (q: ProfileState)
    ensures q.content.Keys == p.content.Keys + {date} && q.content[date] == payload
    ensures forall d :: d in p.content && d != date ==> q.content[d] == p.content[d]
    ensures q.(content := p.content) == p
  {
    p.(content := p.content[date := payload])
  }

  // ---------------------------------------------------------------------------
  // Properties of the early access rule
  // ---------------------------------------------------------------------------

  /** A read succeeds exactly for a member asking for a stored date, and then yields that payload. */
  lemma AccessIff(p: ProfileState, date: string, signer: AccountId)
    ensures Access(p, date, signer).Ok? <==> signer in p.subscribers && date in p.content
    ensures Access(p, date, signer).Ok? ==> Access(p, date, signer).value == p.content[date]
    ensures Access(p, date, signer).Err? ==>
      Access(p, date, signer).error == (if signer in p.subscribers then ContentNotFound else NotASubscriber)
  {
  }

  /** A non-member is refused whatever the content holds. */
  lemma NonMemberRefused(p: ProfileState, q: ProfileState, date: string, signer: AccountId)
    requires signer !in p.subscribers && signer !in q.subscribers
    ensures Access(p, date, signer) == Access(q, date, signer) == Err(NotASubscriber)
  {
  }

  /** Subscribing twice is subscribing once, and a member's subscribe changes nothing. */
  lemma SubscribeIdempotent(p: ProfileState, signer: AccountId)
    ensures Joined(Joined(p, signer), signer) == Joined(p, signer)
    ensures signer in p.subscribers ==> Joined(p, signer) == p
  {
  }

  /** After subscribing, the signer reads exactly what the owner stored, and other accounts' verdicts do not move. */
  lemma SubscribeGrantsAccess(p: ProfileState, signer: AccountId, other: AccountId, date: string)
    requires other != signer
    ensures Access(Joined(p, signer), date, signer) == Lookup(p.content, date)
    ensures Access(Joined(p, signer), date, other) == Access(p, date, other)
  {
  }

  /** Storing a payload works on a consumer profile just as on a creator profile. */
  lemma StoreIgnoresType(p: ProfileState, date: string, payload: string, member: AccountId)
    requires member in p.subscribers
    ensures Stored(p, date, payload).profileType == p.profileType
    ensures Access(Stored(p, date, payload), date, member) == Ok(payload)
  {
  }

  /**
   * There is no owner bypass: a creator profile whose subscriber set lacks its
   * owner refuses the owner too, whatever it stores.
   */
  lemma NoOwnerBypass(owner: AccountId, content: map<string, string>, date: string)
    ensures Access(ProfileState(Creator, content, {}), date, owner) == Err(NotASubscriber)
  {
  }

  /** The seeded creator reads its own item only through its membership of its own set. */
  lemma SeededOwnerReadsByMembership()
    ensures Access(DefaultProfile, "date", SeededAccount) == Ok("content test")
    ensures Access(DefaultProfile.(subscribers := {}), "date", SeededAccount) == Err(NotASubscriber)
  {
  }

  // ---------------------------------------------------------------------------
  // The profile object
  // ---------------------------------------------------------------------------

  class Profile {
    var profileType: ProfileType
    var content: map<string, string>
    var subscribers: set<AccountId>

    function State(): ProfileState
      reads this
    {
      ProfileState(profileType, content, subscribers)
    }

    /** `Profile::new`: the given type, no content, no subscribers. */
    constructor (profileType: ProfileType)
      ensures State() == ProfileState(profileType, map[], {})
    {
      this.profileType := profileType;
      this.content := map[];
      this.subscribers := {};
    }

    /** `Profile::default`. */
    constructor Default()
      ensures State() == DefaultProfile
    {
      profileType := Creator;
      content := map["date" := "content test"];
      subscribers := {SeededAccount};
    }

    /** A profile read back from storage: a copy of the stored value. */
    constructor Load(stored: ProfileState)
      ensures State() == stored
    {
      profileType := stored.profileType;
      content := stored.content;
      subscribers := stored.subscribers;
    }

    /** `Profile::subscribe`, with the signer passed explicitly. */
    method Subscribe(signer: AccountId)
      modifies this
      ensures State() == Joined(old(State()), signer)
    {
      subscribers := subscribers + {signer};
    }

    /** `Profile::add_content`: no type check. */
    method AddContent(date: string, payload: string)
      modifies this
      ensures State() == Stored(old(State()), date, payload)
    {
      content := content[date := payload];
    }
  }

  // ---------------------------------------------------------------------------
  // The contract
  // ---------------------------------------------------------------------------

  /** The early contract: profiles stored as values, loaded as fresh objects and written back when changed. */
  class Contract {
    var data: map<AccountId, ProfileState>

    /** `Contract::default`: only the seeded creator profile. */
    constructor Default()
      ensures data == map[SeededAccount := DefaultProfile]
    {
      var p := new Profile.Default();
      data := map[SeededAccount := p.State()];
    }

    /** `get_profile`: a copy of the stored profile; absence is `None`. */
    method GetProfile(account: AccountId) returns (r: Option<Profile>)
      ensures r.Some? <==> account in data
      ensures r.Some? ==> fresh(r.value) && r.value.State() == data[account]
    {
      if account in data {
        var p := new Profile.Load(data[account]);
        r := Some(p);
      } else {
        r := None;
      }
    }

    /** `add_profile`: a bad type name aborts; otherwise an empty profile replaces whatever `account` had. */
    method AddProfile(account: AccountId, profileType: string) returns (r: Outcome)
      modifies this
      ensures match ParseProfileType(profileType)
        case Err(e) => r == Failure(e) && data == old(data)
        case Ok(t) => r == Success && data == old(data)[account := ProfileState(t, map[], {})]
    {
      var kind := ParseProfileType(profileType);
      if kind.Err? {
        return Failure(kind.error);
      }
      var p := new Profile(kind.value);
      data := data[account := p.State()];
      r := Success;
    }

    /** `subscribe`: no profile is a silent no-op; otherwise the signer joins the creator's set. */
    method Subscribe(signer: AccountId, creator: AccountId)
      modifies this
      ensures creator !in old(data) ==> data == old(data)
      ensures creator in old(data) ==> data == old(data)[creator := Joined(old(data)[creator], signer)]
    {
      var found := GetProfile(creator);
      if found.None? {
        return;
      }
      var profile := found.value;
      profile.Subscribe(signer);
      data := data[creator := profile.State()];
    }

    /** `add_content` on the signer's own profile: no profile is a silent no-op. */
    method AddContent(signer: AccountId, date: string, payload: string)
      modifies this
      ensures signer !in old(data) ==> data == old(data)
      ensures signer in old(data) ==> data == old(data)[signer := Stored(old(data)[signer], date, payload)]
    {
      var found := GetProfile(signer);
      if found.None? {
        return;
      }
      var profile := found.value;
      profile.AddContent(date, payload);
      data := data[signer := profile.State()];
    }

    /** `get_content`: a missing profile aborts; otherwise membership decides. */
    method GetContent(signer: AccountId, creator: AccountId, date: string) returns (r: Result<string>)
      ensures creator !in data ==> r == Err(ProfileNotFound)
      ensures creator in data ==> r == Access(data[creator], date, signer)
    {
      var found := GetProfile(creator);
      if found.None? {
        return Err(ProfileNotFound);
      }
      r := Access(found.value.State(), date, signer);
    }
  }

  // ---------------------------------------------------------------------------
  // The unit tests of src/lib.rs, as client code
  // ---------------------------------------------------------------------------

  /** A consumer profile added for "dan.testnet" has the consumer type and "consumer" is not subscribed to it. */
  method AddProfileScenario() returns (kind: Option<ProfileType>, member: bool)
    ensures kind == Some(Consumer) && !member
  {
    var contract := new Contract.Default();
    var _ := contract.AddProfile("dan.testnet", "consumer");
    var found := contract.GetProfile("dan.testnet");
    kind, member := None, false;
    if found.Some? {
      kind, member := Some(found.value.profileType), "consumer" in found.value.subscribers;
    }
  }

  /**
   * The seeded creator subscribing to itself: it was a member already, so its
   * set is unchanged, and no profile exists for "dan.testnet".
   */
  method SubscribeScenario() returns (danFound: bool, members: set<AccountId>)
    ensures !danFound && members == {SeededAccount}
  {
    var contract := new Contract.Default();
    contract.Subscribe(SeededAccount, SeededAccount);
    var dan := contract.GetProfile("dan.testnet");
    var bob := contract.GetProfile(SeededAccount);
    danFound, members := dan.Some?, {};
    if bob.Some? {
      members := bob.value.subscribers;
    }
  }

  /** The seeded creator reads its seeded item. */
  method DeployerReadsScenario() returns (r: Result<string>)
    ensures r == Ok("content test")
  {
    var contract := new Contract.Default();
    r := contract.GetContent(SeededAccount, SeededAccount, "date");
  }

  /** An account outside the seeded set is refused. */
  method NonSubscriberScenario() returns (r: Result<string>)
    ensures r == Err(NotASubscriber)
  {
    var contract := new Contract.Default();
    r := contract.GetContent("not_bob_near", SeededAccount, "date");
  }

  /** After subscribing, the subscriber reads the seeded item. */
  method SubscriberScenario() returns (r: Result<string>)
    ensures r == Ok("content test")
  {
    var contract := new Contract.Default();
    contract.Subscribe(SeededAccount, SeededAccount);
    r := contract.GetContent(SeededAccount, SeededAccount, "date");
  }

  /** The seeded creator publishes and reads back its new item. */
  method AddContentScenario() returns (r: Result<string>)
    ensures r == Ok("content test part 2")
  {
    var contract := new Contract.Default();
    contract.AddContent(SeededAccount, "date part 2", "content test part 2");
    r := contract.GetContent(SeededAccount, SeededAccount, "date part 2");
  }

  /** A creator registered through `add_profile` cannot read what it publishes itself. */
  method OwnerRefusedScenario() returns (r: Result<string>)
    ensures r == Err(NotASubscriber)
  {
    var contract := new Contract.Default();
    var _ := contract.AddProfile("carol_near", "creator");
    contract.AddContent("carol_near", "date", "own item");
    r := contract.GetContent("carol_near", "carol_near", "date");
  }
}
