/**
 * What both versions of the contract share: account names, the errors a call
 * aborts with, call results, the profile type and its parser, and the
 * content lookup.
 */
module Shared {

  type AccountId = string

  /** Why an operation aborted; `Message` gives the text the contract uses. */
  datatype Error =
    | InvalidProfileType
    | ContentNotFound
    | SubscriptionEnded
    | NotASubscriber
    | NotACreator
    | CostUnavailable
    | StillSubscribed
    | ProfileNotFound
    | InvalidNumber
    | Overflow

  function Message(e: Error): string {
    match e
    case InvalidProfileType => "enter a valid profile type"
    case ContentNotFound => "Could not find content for that date"
    case SubscriptionEnded => "Please top up as current subscription has ended"
    case NotASubscriber => "Not a subscriber, please subscribe"
    case NotACreator => "Please create a creator profile to add content"
    case CostUnavailable => "could not access cost"
    case StillSubscribed => "User has content left on current subscription"
    case ProfileNotFound => "this profile does not exist"
    case InvalidNumber => "called `Result::unwrap()` on an `Err` value"
    case Overflow => "attempt to multiply with overflow"
  }

  /** The length of each error's text; no two are alike. */
  function MessageLength(e: Error): nat {
    match e
    case InvalidProfileType => 26
    case ContentNotFound => 36
    case SubscriptionEnded => 47
    case NotASubscriber => 34
    case NotACreator => 46
    case CostUnavailable => 21
    case StillSubscribed => 45
    case ProfileNotFound => 27
    case InvalidNumber => 43
    case Overflow => 33
  }

  lemma MessageHasLength(e: Error)
    ensures |Message(e)| == MessageLength(e)
  {
  }

  /** Distinct errors abort with distinct texts: the texts already differ in length. */
  lemma MessagesDistinct(e1: Error, e2: Error)
    requires e1 != e2
    ensures Message(e1) != Message(e2)
  {
    MessageHasLength(e1);
    MessageHasLength(e2);
  }

  /** A value, or the error that aborted the call. */
  datatype Result<T> = Ok(value: T) | Err(error: Error)

  /** The effect of a call that returns nothing: it completed, or it aborted. */
  datatype Outcome = Success | Failure(error: Error)

  datatype ProfileType = Creator | Consumer

  /** `ProfileType::new`: only the two lower-case names are accepted. */
  function ParseProfileType(name: string): (r: Result<ProfileType>)
    ensures r == Ok(Creator) <==> name == "creator"
    ensures r == Ok(Consumer) <==> name == "consumer"
    ensures r.Err? ==> r.error == InvalidProfileType
  {
    match name
    case "creator" => Ok(Creator)
    case "consumer" => Ok(Consumer)
    case _ => Err(InvalidProfileType)
  }

  /** The payload stored under `date`, if any. */
  function Lookup(content: map<string, string>, date: string): Result<string> {
    if date in content then Ok(content[date]) else Err(ContentNotFound)
  }
}
