# Content subscription contract on NEAR: a verified model

The repository is a NEAR smart contract. Creators publish dated content, and consumers pay a creator to read it. The contract keeps one profile per account, and each profile has a type: creator or consumer.

The current version (`contracts/src/data_structures.rs`, `contracts/src/lib.rs`) gives every profile:
- a content map from date key to payload;
- a price, stored in yoctoNEAR under the key `"cost"`;
- a `content_count`, the number of items published, which never decreases between registrations (a new `add_profile` for the account restarts it at 0);
- a `payment_interval`;
- a subscriber ledger, which records for each subscriber the value `content_count` had when that subscriber last paid (its *snapshot*).

Payment buys a window of `payment_interval` further items. A non-owner may read while `content_count <= snapshot + payment_interval`. The owner may always read. `subscribe` refuses to take a payment while the signer's window is still open. Otherwise it transfers the price to the creator and records a new snapshot.

The earlier version (`src/lib.rs`) keeps only a set of subscribers. Reading there needs membership of that set, and nothing else: there is no owner bypass, no price and no interval.

Modules:

- `Options` is the optional value.
- `Shared` holds what both versions use: account names, errors with their messages, call results, the profile type and its parser, and the content lookup.
- `Numbers` holds Rust's `parse::<u128>` and `parse::<i32>`, the decimal output of `format!`, and the checked scaling between whole NEAR and yoctoNEAR (10^24 yocto per NEAR).
- `Profiles` is the current profile: its value `ProfileState`, the entitlement rule `Access` with the account's `Standing`, the specification functions of its updates, and the `Profile` class whose methods update its fields in place.
- `SubscriptionContract` is the current contract: the `Contract` class, the per-operation transition functions and the unit tests, written as client methods.
- `Entitlement` holds the lemmas that relate several operations: subscribe against access, lapsing as content is published, and the price round trip.
- `EarlySubscription` is the earlier version: its profile value, its access rule, its `Profile` and `Contract` classes and its unit tests.

Modelling choices:

- **Signer:** the signing account (`env::signer_account_id()`) is an explicit parameter.
- **Panics:** a panic becomes a `Failure(e)` or `Err(e)` result. The state is left unchanged, as a reverted transaction leaves it.
- **Transfers:** `Promise::new(creator).transfer(amount)` appends `Transfer(creator, amount)` to the ghost log `Contract.transfers`. This is what lets "no payment happened" be stated. No attached deposit is checked anywhere in the source, so a transfer is paid out of the contract's own balance. The model records only that the transfer was started.
- **Storage:** a contract holds `data: map<AccountId, ProfileState>`, which are stored values.
  - Reading a profile builds a fresh `Profile` object from the stored value (`Profile.Load`). This is the by-value copy that `LookupMap::get` returns.
  - An operation updates that object through the `Profile` methods and writes its new state back.
  - The source never calls `data.insert` after changing a fetched profile. The model assumes the evident intent, which is that the change is stored. In the source the copy's `content`, `subscribers` and `costs` fields are storage handles, so an `insert` through them is written to storage anyway; only the change to the plain `content_count` field would be lost.
  - Each profile's maps are independent of every other profile's maps.
- **Integers:**
  - `cost * 10^24` is checked `u128` arithmetic. An overflow aborts with `Overflow`.
  - Parsing follows Rust's rules for each type: an optional `+`, a `-` only for `i32`, at least one digit and the type's range. A failed `unwrap()` aborts with `InvalidNumber`.
  - `content_count`, the snapshots and the interval are unbounded integers.

## Model

| member | source | states |
|---|---|---|
| Shared.ParseProfileType | contracts/src/data_structures.rs:35-41 | "creator" gives Creator and "consumer" gives Consumer, both as if-and-only-ifs. Every other name is rejected with the "enter a valid profile type" error. `src/lib.rs:31-37` is the same function. |
| Numbers.ParseU128 | contracts/src/lib.rs:41 | A parsed `u128` never exceeds 2^128 - 1. |
| Numbers.ParseU128Shape | contracts/src/lib.rs:41 | Every string `parse::<u128>` accepts is an optional '+' followed by at least one digit and nothing else, and its value is the decimal value of those digits. |
| Numbers.ParseI32 | contracts/src/lib.rs:43 | A parsed `i32` lies in [-2^31, 2^31 - 1]. `ParseI32Shape` states the form of every accepted string and its value (an optional sign, then digits), and `FormatThenParseI32` states that every canonical `i32` string parses to its own value. Which malformed strings are rejected follows Rust's rules in the body. |
| Numbers.ParseI32Shape | contracts/src/lib.rs:43 | Every string `parse::<i32>` accepts is an optional '+' or '-' followed by at least one digit and nothing else, and its value is the signed decimal value of those digits. |
| Shared.MessagesDistinct | contracts/src/lib.rs:54-132 | Distinct errors abort with distinct panic texts (those of `Shared.Message`, which copies the source's strings, e.g. "could not access cost", "User has content left on current subscription", "this profile does not exist"), so a caller can tell every abort apart by its text. |
| Numbers.FormatDecimal | contracts/src/lib.rs:119 | The output is a non-empty digit string whose value is the input, with no leading zero unless the input is 0. |
| Numbers.FormatSigned | contracts/src/lib.rs:43 | The decimal form of an `i32`, the partner of `ParseI32`: it starts with '-' exactly for a negative value. |
| Numbers.FormatThenParseI32 | contracts/src/lib.rs:43 | Parsing the formatted form of any `i32` yields the same number, so `ParseI32` accepts every canonical `i32` string with its value. |
| Numbers.FormatThenParse | contracts/src/lib.rs:119 | Parsing the formatted `u128` yields the same number. |
| Numbers.ToYocto | contracts/src/lib.rs:40-42 | A defined product fits in a `u128` and is a whole multiple of 10^24. |
| Numbers.FromYocto | contracts/src/lib.rs:119 | The result is the truncated quotient: `near * 10^24 <= yocto < (near + 1) * 10^24`. |
| Numbers.ToYoctoDefinedIff | contracts/src/lib.rs:40-42 | The scaling overflows exactly for amounts above 340282366920938 NEAR. |
| Numbers.YoctoRoundTrip | contracts/src/lib.rs:128-130 | Scaling to yocto and dividing back returns the whole-NEAR amount. |
| Profiles.Access | contracts/src/data_structures.rs:98-124 | `Profile::get_content`, following the source's nested branches. Its own contract says that a success yields the payload stored under the date, and that a refusal is ContentNotFound, SubscriptionEnded or NotASubscriber. The rule itself is proved by `OwnerBypass`, `NonSubscriberRefused`, `GateInclusive` and `AccessFollowsStanding`, and its link to subscribe by `Entitlement.SubscribeIffNotEntitled`. |
| Profiles.StandingOf | contracts/src/data_structures.rs:106-121 | An account is never-subscribed exactly when it has no ledger entry. Otherwise it carries its recorded snapshot. |
| Profiles.Subscribed | contracts/src/data_structures.rs:93-96 | The ledger gains the signer, with the current counter as its snapshot. Other entries keep their snapshots, and every other field is unchanged. |
| Profiles.ContentAdded | contracts/src/data_structures.rs:126-134 | This succeeds exactly on a creator profile. The payload is stored under `date`, overwriting any earlier one, and other dates keep their payloads. A consumer profile fails with "Please create a creator profile". |
| Profiles.CostUpdated | contracts/src/data_structures.rs:136-138 | The price under "cost" becomes the new value. Every other key of the `costs` map keeps its value, and every other field is unchanged. |
| Profiles.OwnerBypass | contracts/src/data_structures.rs:99-103 | The owner's read depends on the content alone, whatever the ledger and counter hold. It succeeds iff the date is present. |
| Profiles.NonSubscriberRefused | contracts/src/data_structures.rs:118-121 | A non-owner with no ledger entry gets "Not a subscriber", even if the date exists. |
| Profiles.AccessFollowsStanding | contracts/src/data_structures.rs:98-124 | A non-owner's verdict by standing: never subscribed gives NotASubscriber, lapsed gives SubscriptionEnded, active gives the content lookup. |
| Profiles.GateInclusive | contracts/src/data_structures.rs:106-116 | A subscriber avoids "subscription has ended" iff `content_count <= snapshot + payment_interval`, with the bound inclusive. |
| Profiles.Profile.constructor | contracts/src/data_structures.rs:72-91 | A new profile has the given type, no content, no subscribers, counter 0, `costs["cost"]` set to the given price and the given interval. |
| Profiles.Profile.Default | contracts/src/data_structures.rs:44-69 | The seeded profile is a creator with `"date" -> "content test"`, no subscribers, a price of 10^25 yocto, counter 1 and interval 4. |
| Profiles.Profile.Load | contracts/src/lib.rs:35-37 | A loaded profile object holds exactly the stored value. |
| Profiles.Profile.Subscribe | contracts/src/data_structures.rs:93-96 | The new state is `Subscribed` of the old state. |
| Profiles.Profile.AddContent | contracts/src/data_structures.rs:126-134 | A creator's state becomes `ContentAdded` of the old state and the call reports Success. A consumer's call fails and changes nothing. |
| Profiles.Profile.UpdateCost | contracts/src/data_structures.rs:136-138 | The new state is `CostUpdated` of the old state. |
| SubscriptionContract.ParseProfileArgs | contracts/src/lib.rs:39-47 | The arguments are accepted iff the cost parses and is at most 340282366920938 NEAR, the interval parses as an `i32`, and the type name is valid. If accepted, the stored price is cost * 10^24. An unparsable cost aborts first. |
| SubscriptionContract.NewProfile | contracts/src/lib.rs:44-51 | The profile `add_profile` stores is well formed, priced at the checked yocto amount, with no content and an empty ledger. `Entitlement.NewProfileStartsOver` proves that it restarts the counter and every standing. |
| SubscriptionContract.AfterSubscribe | contracts/src/lib.rs:59-79 | The price check and the window guard of `subscribe`, then the ledger update. Its own contract says that a success is exactly `Subscribed` on a priced profile, and that a refusal is CostUnavailable or StillSubscribed. That the guard is the exact complement of the access gate is proved by `Entitlement.SubscribeIffNotEntitled`; what it records and grants is proved by `SubscribeRecordsSnapshot`, `SubscribeEntitles`, `SubscribeNeedsPrice` and `ResubscribeAfterLapse`. |
| SubscriptionContract.AfterAddContent | contracts/src/lib.rs:82-92 | `add_content` on the signer's profile succeeds exactly for a creator. It then raises the counter by one and stores the payload under the date; otherwise it fails with NotACreator. `Entitlement.AddContentByCreator` and `PublishAllAdvancesCounter` prove the rest. |
| SubscriptionContract.AfterUpdateCost | contracts/src/lib.rs:128-131 | A successful `update_cost` stores a whole multiple of 10^24 under "cost" and changes no other field. A failure is InvalidNumber or Overflow. `Entitlement.UpdateCostFailsIff`, `UpdateCostKeepsEntitlements` and `UpdateThenGetCost` prove the rest. |
| SubscriptionContract.CostDisplay | contracts/src/lib.rs:115-119 | `get_cost` on a profile succeeds exactly when a price is stored. It then shows the decimal digits of the price's whole-NEAR part; otherwise it fails with CostUnavailable. The round trip with `update_cost` is `Entitlement.UpdateThenGetCost`. |
| SubscriptionContract.Contract.Default | contracts/src/lib.rs:19-29 | The only profile is `bob_near` with the seeded profile, and no transfers have been made. |
| SubscriptionContract.Contract.GetProfile | contracts/src/lib.rs:35-37 | The result is present iff the account has a profile. It is then a fresh copy of the stored value. |
| SubscriptionContract.Contract.AddProfile | contracts/src/lib.rs:39-52 | A bad argument aborts and leaves `data` unchanged. Otherwise a fresh profile replaces the account's entry wholesale. No transfers are made. |
| SubscriptionContract.Contract.Subscribe | contracts/src/lib.rs:54-80 | An unknown creator is a silent no-op. A profile with no price aborts. A signer whose window is still open aborts with no transfer. Otherwise the price is transferred to the creator and the snapshot is recorded. |
| SubscriptionContract.Contract.AddContent | contracts/src/lib.rs:82-92 | With no profile, nothing happens. On a creator profile the counter rises by one and the payload is stored. On a consumer profile the call aborts and nothing changes. |
| SubscriptionContract.Contract.GetContent | contracts/src/lib.rs:94-107 | An unknown creator gives "this profile does not exist". Otherwise the verdict is the entitlement rule, with the owner identified as signer == creator. |
| SubscriptionContract.Contract.GetCost | contracts/src/lib.rs:109-120 | With no profile it aborts. Otherwise the result is the price in whole NEAR, as a decimal string. |
| SubscriptionContract.Contract.UpdateCost | contracts/src/lib.rs:122-132 | With no profile it aborts first. A bad or too large number aborts and changes nothing. Otherwise only the price changes. |
| SubscriptionContract.AddProfileScenario | contracts/src/lib.rs:149-182 | A consumer profile added for "dan.testnet" has the consumer type and an empty ledger. |
| SubscriptionContract.SubscribeScenario | contracts/src/lib.rs:184-202 | After "dan.testnet" subscribes to `bob_near`, its ledger entry is `Some(1)`, after exactly one transfer of 10^25 yocto to `bob_near`. |
| SubscriptionContract.NonSubscriberScenario | contracts/src/lib.rs:223-243 | "not_bob_near" is refused as a non-subscriber. |
| SubscriptionContract.SubscriberScenario | contracts/src/lib.rs:245-262 | Right after subscribing, "dan_testnet" reads "content test". |
| SubscriptionContract.CreatorAddsScenario | contracts/src/lib.rs:264-281 | `bob_near` publishes "content test part 2" and reads it back. |
| SubscriptionContract.ConsumerAddsScenario | contracts/src/lib.rs:283-309 | A consumer's `add_content` aborts with "Please create a creator profile". |
| SubscriptionContract.UpdateCostScenario | contracts/src/lib.rs:311-334 | A creator registered at 3 NEAR sets its price to 2 and `get_cost` returns "2". |
| Entitlement.SubscribeIffNotEntitled | contracts/src/lib.rs:63-79 | For a priced profile, subscribe succeeds iff the signer is not active, and iff a non-owner read by the signer is refused as NotASubscriber or SubscriptionEnded. Any other outcome is StillSubscribed. |
| Entitlement.SubscribeNeedsPrice | contracts/src/lib.rs:59-62 | A profile with no price refuses every subscribe with "could not access cost". |
| Entitlement.SubscribeRecordsSnapshot | contracts/src/lib.rs:74-77 | A successful subscribe sets the signer's snapshot to the current counter. Other ledger entries, content, price, counter and interval are unchanged. |
| Entitlement.SubscribeEntitles | contracts/src/lib.rs:66-68 | Right after a successful subscribe the signer is active and reads the content lookup, provided the interval is at least 0. With a negative interval the signer is already lapsed. |
| Entitlement.AddContentByCreator | contracts/src/lib.rs:82-92 | On a creator profile, `add_content` raises the counter by exactly one and the owner reads the new payload. Ledger, price and interval are unchanged. |
| Entitlement.AddContentByConsumer | contracts/src/data_structures.rs:126-134 | On a consumer profile, `add_content` fails with "Please create a creator profile". |
| Entitlement.PublishAllAdvancesCounter | contracts/src/lib.rs:88-91 | Publishing n items on a creator profile raises the counter by exactly n and leaves ledger, price, interval and type unchanged. |
| Entitlement.LapseExactly | contracts/src/data_structures.rs:106-116 | After paying at counter N and k further items, the subscriber is Active(N) iff k <= interval, else Lapsed(N). It is told the subscription has ended iff k > interval. |
| Entitlement.LapsedStaysLapsed | contracts/src/data_structures.rs:106-116 | Once lapsed, an account stays lapsed, with the same snapshot, however much more the creator publishes. |
| Entitlement.ResubscribeAfterLapse | contracts/src/lib.rs:64-68 | A lapsed subscriber may pay again, and with an interval of at least 0 it then reads the content lookup. |
| Entitlement.UpdateCostFailsIff | contracts/src/lib.rs:122-130 | `update_cost` on an existing profile fails iff the number does not parse or exceeds 340282366920938 NEAR. |
| Entitlement.UpdateCostKeepsEntitlements | contracts/src/data_structures.rs:136-138 | `update_cost` leaves counter, ledger, content, every standing and every non-owner verdict unchanged. |
| Entitlement.UpdateThenGetCost | contracts/src/lib.rs:109-132 | After `update_cost(c)`, `get_cost` shows the decimal form of the parsed c. |
| Entitlement.UpdateThenGetCostCanonical | contracts/src/lib.rs:109-132 | For a price written in canonical decimal form within range, `update_cost` succeeds and `get_cost` returns the very same string. |
| Entitlement.NewProfileStartsOver | contracts/src/lib.rs:39-52 | A profile written by `add_profile` is well formed and has counter 0. Every account is never-subscribed, a non-owner is refused as a non-subscriber and the owner finds no content. |
| Entitlement.TransitionsKeepCounterMonotone | contracts/src/lib.rs:54-132 | Every successful transition keeps a profile well formed: a price is stored and the counter is at least 0. Subscribe and update_cost keep the counter; add_content raises it by one. The counter is monotone only between registrations, since `add_profile` restarts it at 0 (`NewProfileStartsOver`). |
| EarlySubscription.Access | src/lib.rs:81-92 | `Profile::get_content` of the earlier version. Its own contract says that a success yields the payload stored under the date, and that a refusal is ContentNotFound or NotASubscriber. The rule is proved by `AccessIff`, `NonMemberRefused` and `NoOwnerBypass`. |
| EarlySubscription.Joined | src/lib.rs:76-79 | Subscribing adds the signer to the subscriber set and changes nothing else. |
| EarlySubscription.Stored | src/lib.rs:94-96 | The payload is stored under `date`, overwriting any earlier one. Other dates and every other field are unchanged, and there is no type check. |
| EarlySubscription.AccessIff | src/lib.rs:81-92 | A read succeeds iff the signer is a member and the date is stored, and then yields that payload. A member asking for a missing date gets ContentNotFound; a non-member gets NotASubscriber. |
| EarlySubscription.NonMemberRefused | src/lib.rs:81-92 | A non-member gets "Not a subscriber" whatever the content holds. |
| EarlySubscription.SubscribeIdempotent | src/lib.rs:76-79 | Subscribing twice equals subscribing once, and a member's subscribe changes nothing. |
| EarlySubscription.SubscribeGrantsAccess | src/lib.rs:76-92 | After subscribing, the signer reads exactly the content lookup, and every other account's verdict is unchanged. |
| EarlySubscription.StoreIgnoresType | src/lib.rs:94-96 | Storing works whatever the profile type, and a member then reads the new payload. |
| EarlySubscription.NoOwnerBypass | src/lib.rs:81-92 | A creator profile with an empty subscriber set refuses everyone, its owner included. |
| EarlySubscription.SeededOwnerReadsByMembership | src/lib.rs:40-58 | `bob_near` reads its seeded item, and would be refused if it were not in its own subscriber set. |
| EarlySubscription.Profile.constructor | src/lib.rs:62-74 | A new profile has the given type, no content and no subscribers. |
| EarlySubscription.Profile.Default | src/lib.rs:40-58 | The seeded profile is a creator with `"date" -> "content test"` and subscriber set `{bob_near}`. |
| EarlySubscription.Profile.Load | src/lib.rs:121-123 | A loaded profile object holds exactly the stored value. |
| EarlySubscription.Profile.Subscribe | src/lib.rs:76-79 | The new state is `Joined` of the old state. |
| EarlySubscription.Profile.AddContent | src/lib.rs:94-96 | The new state is `Stored` of the old state. |
| EarlySubscription.Contract.Default | src/lib.rs:105-116 | The only profile is `bob_near` with the seeded profile. |
| EarlySubscription.Contract.GetProfile | src/lib.rs:121-123 | The result is present iff the account has a profile. It is then a fresh copy of the stored value. |
| EarlySubscription.Contract.AddProfile | src/lib.rs:125-132 | A bad type name aborts and leaves `data` unchanged. Otherwise an empty profile replaces the account's entry. |
| EarlySubscription.Contract.Subscribe | src/lib.rs:134-140 | An unknown creator is a no-op. Otherwise the creator's profile becomes `Joined` with the signer. |
| EarlySubscription.Contract.AddContent | src/lib.rs:142-149 | With no profile it is a no-op. Otherwise the signer's profile becomes `Stored` with the payload. |
| EarlySubscription.Contract.GetContent | src/lib.rs:151-160 | An unknown creator gives "this profile does not exist". Otherwise membership decides. |
| EarlySubscription.AddProfileScenario | src/lib.rs:177-199 | A consumer profile added for "dan.testnet" has the consumer type, and "consumer" is not in its set. |
| EarlySubscription.SubscribeScenario | src/lib.rs:201-215 | When `bob_near` subscribes to itself, its set stays `{bob_near}`. No profile exists for "dan.testnet", so the test's check is never reached. |
| EarlySubscription.DeployerReadsScenario | src/lib.rs:217-229 | `bob_near` reads "content test". |
| EarlySubscription.NonSubscriberScenario | src/lib.rs:231-246 | "not_bob_near" is refused as a non-subscriber. |
| EarlySubscription.SubscriberScenario | src/lib.rs:248-261 | After subscribing, `bob_near` reads "content test". |
| EarlySubscription.AddContentScenario | src/lib.rs:263-276 | `bob_near` publishes "content test part 2" and reads it back. |
| EarlySubscription.OwnerRefusedScenario | src/lib.rs:151-160 | A creator registered by `add_profile` is refused when it reads what it has just published itself. |

`Contract::get_content` takes `&mut self` (`contracts/src/lib.rs:94`, `src/lib.rs:151`), and so does `get_profile` (`contracts/src/lib.rs:35`, `src/lib.rs:121`), but neither writes anything: `get_content` reads a copy through `get_profile` and calls `Profile::get_content`, which takes `&self` (`contracts/src/data_structures.rs:98`). `get_cost` consumes `self` (`contracts/src/lib.rs:109`) and also writes nothing. The modelled `GetProfile`, `GetContent` and `GetCost` therefore have no `modifies` clause and change nothing.

## Left out

- **Storage-key prefixes are not modelled.** Every profile's collections reuse the same storage prefixes (`contracts/src/data_structures.rs:20-26`, `src/lib.rs:17-22`). In real storage, all profiles would therefore share one content map, one ledger and one price. The model gives every profile its own maps.
- **The missing write-back is assumed away.** A fetched profile is never stored back with `data.insert` (`contracts/src/lib.rs:55`, `84`, `124`; `src/lib.rs:135`, `144`). The model stores the changed profile. In the source, `content`, `subscribers` and `costs` are storage handles (`LookupMap`/`LookupSet`), so an `insert` through the fetched copy does reach storage (under the shared prefix above) even without `data.insert`. Only the plain `content_count` field, which is part of the serialised struct, would actually be lost.
- **Account-name validation is not modelled.** `AccountId` is any string; NEAR's rules for valid account names (allowed characters, length) are not checked, and no property here depends on them.
- **`content_count` accessors:** `contracts/src/lib.rs:63` and `88-89` call `.get` and `.insert` on `content_count`, which is declared as an `i32`. The model reads the field and adds one.
- Profiles.GateInclusive: the counter, the snapshots and `snapshot + payment_interval` are unbounded integers. The source's `i32` addition at `contracts/src/data_structures.rs:108` and `contracts/src/lib.rs:66`, and its increment at `contracts/src/lib.rs:89`, are not modelled as overflowing.
- Numbers.ToYocto: the product is modelled as checked `u128` arithmetic that aborts on overflow. A release build without overflow checks would wrap instead, and that is not modelled.
- **Balances are not modelled.** Neither the signer's nor the contract's balance appears in the model. A failed transfer does not either: the transfer is asynchronous and fire-and-forget. This also drops the `test_subscribe_low_balance` test (`contracts/src/lib.rs:204-221`).
- **Logging is not modelled:** `env::log_str`.
- **Serialisation is not modelled:** Borsh serialisation, the `#[near_bindgen]` entry-point plumbing, and the `result_serializer(borsh)` output of `get_profile`.
- **Exact panic text:** the text of a failed `unwrap()` on a parse error is modelled as a single fixed message. The source's `ParseIntError` text is not.
- **The off-chain test harness is not part of this model:** `testing/src/*` (sandbox workspaces, process spawning, file reads).
