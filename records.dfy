/**
 * The value types of the app: check-in outcomes and records, emergency
 * contacts, the user profile, and the persisted (JSON object) form of a
 * check-in.
 */
module Records {
  import opened Common

  /** Answer to "are you safe?": YES, NO, or no answer before the deadline. */
  datatype CheckInResponse = Yes | No | Timeout

  /** `CheckInResponse.name` */
  function ResponseName(r: CheckInResponse): string {
    match r
    case Yes => "YES"
    case No => "NO"
    case Timeout => "TIMEOUT"
  }

  /** `CheckInResponse.valueOf(name)`; None where it throws IllegalArgumentException. */
  function ResponseValueOf(name: string): (r: Option<CheckInResponse>)
    ensures r.Some? ==> ResponseName(r.value) == name
  {
    if name == "YES" then Some(Yes)
    else if name == "NO" then Some(No)
    else if name == "TIMEOUT" then Some(Timeout)
    else None
  }

  lemma ValueOfName(r: CheckInResponse)
    ensures ResponseValueOf(ResponseName(r)) == Some(r)
  {
  }

  /** One past check-in. Coordinates are Kotlin Doubles, modelled as reals. */
  datatype CheckIn = CheckIn(
    timestamp: int,
    response: CheckInResponse,
    latitude: real,
    longitude: real,
    locationAddress: Option<string>)

  /**
   * The JSON object a check-in is written as: the response by its name and
   * the address as a string, `""` standing for a null address.
   */
  datatype StoredCheckIn = StoredCheckIn(
    timestamp: int,
    response: string,
    latitude: real,
    longitude: real,
    locationAddress: string)

  /** What a service's `onStartCommand` returns: `START_STICKY` or `START_NOT_STICKY`. */
  datatype StartMode = Sticky | NotSticky

  datatype EmergencyContact = EmergencyContact(name: string, phone: string, relationship: string)

  datatype User = User(
    userName: string,
    userPhone: string,
    userGender: string,
    userDOB: string,
    userAddress: string,
    userCity: string)
}
