/**
 * The "HelpNowPrefs" preferences file behind `SharedPreferencesManager`:
 * login flag, user record, emergency contacts, permission flags, and the
 * voice-guard settings (enabled flag, voiceprint, last detection, the per-day
 * false-alarm counter, service status, custom danger phrase).
 *
 * Every getter of the source catches exceptions and returns its default;
 * `KeyValue`'s getters do the same for a missing key or a value of another
 * type. Each setter is a store transformer here, and the methods of class
 * `SharedPreferencesManager` are proved against them. The date "today" is a
 * parameter (the source formats the wall clock as `yyyy-MM-dd`).
 */
module AppPrefs {
  import opened Common
  import opened Records
  import opened KeyValue

  const KEY_USER_LOGGED_IN := "isUserLoggedIn"
  const KEY_USER_NAME := "userName"
  const KEY_USER_PHONE := "userPhone"
  const KEY_USER_GENDER := "userGender"
  const KEY_USER_DOB := "userDOB"
  const KEY_USER_ADDRESS := "userAddress"
  const KEY_USER_CITY := "userCity"
  const KEY_EMERGENCY_CONTACTS := "emergencyContacts"
  const KEY_PERMISSION_LOCATION := "permissionLocation"
  const KEY_PERMISSION_MICROPHONE := "permissionMicrophone"
  const KEY_PERMISSION_CAMERA := "permissionCamera"
  const KEY_PERMISSION_SMS := "permissionSMS"
  const KEY_PERMISSION_CALL := "permissionCall"
  const KEY_VOICE_GUARD_ENABLED := "voiceGuardEnabled"
  const KEY_USER_VOICEPRINT := "userVoiceprint"
  const KEY_LAST_DETECTION_TIME := "lastDetectionTime"
  const KEY_FALSE_ALARMS_TODAY := "falseAlarmsToday"
  const KEY_FALSE_ALARMS_DATE := "falseAlarmsDate"
  const KEY_VOICE_SERVICE_STATUS := "voiceServiceStatus"
  const KEY_CUSTOM_DANGER_PHRASE := "customDangerPhrase"
  const DEFAULT_DANGER_PHRASE := "I'm in danger 1"
  const DEFAULT_SERVICE_STATUS := "stopped"
  /** Shortest danger phrase that is saved or read back. */
  const MIN_PHRASE_LENGTH := 5

  const ACCESS_FINE_LOCATION := "android.permission.ACCESS_FINE_LOCATION"
  const ACCESS_COARSE_LOCATION := "android.permission.ACCESS_COARSE_LOCATION"
  const RECORD_AUDIO := "android.permission.RECORD_AUDIO"
  const CAMERA := "android.permission.CAMERA"
  const SEND_SMS := "android.permission.SEND_SMS"
  const CALL_PHONE := "android.permission.CALL_PHONE"

  // ---------------------------------------------------------------------
  // Login and user record

  function IsUserLoggedIn(m: Store): bool {
    GetBoolean(m, KEY_USER_LOGGED_IN, false)
  }

  function WithLoggedIn(m: Store, status: bool): Store {
    m[KEY_USER_LOGGED_IN := BoolVal(status)]
  }

  /** The login flag reads back as written, and is false in an empty file. */
  lemma LoggedInRoundTrip(m: Store, b: bool)
    ensures IsUserLoggedIn(WithLoggedIn(m, b)) == b
    ensures !IsUserLoggedIn(map[])
  {
  }

  /** `saveUserData`: the six strings in one edit. */
  function WithUserData(m: Store, u: User): Store {
    m[KEY_USER_NAME := StringVal(u.userName)]
     [KEY_USER_PHONE := StringVal(u.userPhone)]
     [KEY_USER_GENDER := StringVal(u.userGender)]
     [KEY_USER_DOB := StringVal(u.userDOB)]
     [KEY_USER_ADDRESS := StringVal(u.userAddress)]
     [KEY_USER_CITY := StringVal(u.userCity)]
  }

  /** `getUserData`: a user only when all six strings are present. */
  function GetUserData(m: Store): (r: Option<User>)
    ensures r.Some? <==> (GetString(m, KEY_USER_NAME).Some? && GetString(m, KEY_USER_PHONE).Some?
                          && GetString(m, KEY_USER_GENDER).Some? && GetString(m, KEY_USER_DOB).Some?
                          && GetString(m, KEY_USER_ADDRESS).Some? && GetString(m, KEY_USER_CITY).Some?)
    ensures r.Some? ==> (GetString(m, KEY_USER_NAME) == Some(r.value.userName)
                         && GetString(m, KEY_USER_PHONE) == Some(r.value.userPhone)
                         && GetString(m, KEY_USER_GENDER) == Some(r.value.userGender)
                         && GetString(m, KEY_USER_DOB) == Some(r.value.userDOB)
                         && GetString(m, KEY_USER_ADDRESS) == Some(r.value.userAddress)
                         && GetString(m, KEY_USER_CITY) == Some(r.value.userCity))
  {
    match (GetString(m, KEY_USER_NAME), GetString(m, KEY_USER_PHONE), GetString(m, KEY_USER_GENDER),
           GetString(m, KEY_USER_DOB), GetString(m, KEY_USER_ADDRESS), GetString(m, KEY_USER_CITY))
    case (Some(n), Some(p), Some(g), Some(d), Some(a), Some(c)) => Some(User(n, p, g, d, a, c))
    case _ => None
  }

  lemma UserDataRoundTrip(m: Store, u: User)
    ensures GetUserData(WithUserData(m, u)) == Some(u)
  {
  }

  /** A record with one string missing reads as no user at all. */
  lemma UserDataAllOrNothing(m: Store, u: User, key: string)
    requires key in {KEY_USER_NAME, KEY_USER_PHONE, KEY_USER_GENDER, KEY_USER_DOB, KEY_USER_ADDRESS, KEY_USER_CITY}
    ensures GetUserData(WithUserData(m, u) - {key}) == None
  {
    var w := WithUserData(m, u) - {key};
    assert GetString(w, key) == None;
  }

  // ---------------------------------------------------------------------
  // Emergency contacts

  function WithEmergencyContacts(m: Store, cs: seq<EmergencyContact>): Store {
    m[KEY_EMERGENCY_CONTACTS := ContactsJson(cs)]
  }

  /** `getEmergencyContacts`: no key or text that does not parse gives the empty list. */
  function EmergencyContacts(m: Store): (r: seq<EmergencyContact>)
    ensures KEY_EMERGENCY_CONTACTS !in m ==> r == []
  {
    if KEY_EMERGENCY_CONTACTS in m && m[KEY_EMERGENCY_CONTACTS].ContactsJson? then
      m[KEY_EMERGENCY_CONTACTS].contacts
    else []
  }

  lemma ContactsRoundTrip(m: Store, cs: seq<EmergencyContact>)
    ensures EmergencyContacts(WithEmergencyContacts(m, cs)) == cs
  {
  }

  // ---------------------------------------------------------------------
  // Permission flags

  /** The key a permission is stored under; FINE and COARSE location share one. */
  function PermissionKey(permission: string): (r: Option<string>)
    ensures r.Some? <==> permission in {ACCESS_FINE_LOCATION, ACCESS_COARSE_LOCATION, RECORD_AUDIO,
                                          CAMERA, SEND_SMS, CALL_PHONE}
  {
    if permission == ACCESS_FINE_LOCATION || permission == ACCESS_COARSE_LOCATION then Some(KEY_PERMISSION_LOCATION)
    else if permission == RECORD_AUDIO then Some(KEY_PERMISSION_MICROPHONE)
    else if permission == CAMERA then Some(KEY_PERMISSION_CAMERA)
    else if permission == SEND_SMS then Some(KEY_PERMISSION_SMS)
    else if permission == CALL_PHONE then Some(KEY_PERMISSION_CALL)
    else None
  }

  /** `savePermissionStatus`: nothing is written for a permission without a key. */
  function WithPermissionStatus(m: Store, permission: string, granted: bool): Store {
    match PermissionKey(permission)
    case Some(k) => m[k := BoolVal(granted)]
    case None => m
  }

  function IsPermissionGranted(m: Store, permission: string): bool {
    match PermissionKey(permission)
    case Some(k) => GetBoolean(m, k, false)
    case None => false
  }

  /** Distinct permissions get distinct keys, except the two location ones. */
  lemma PermissionKeysDistinct(p: string, q: string)
    requires PermissionKey(p).Some? && PermissionKey(q).Some? && p != q
    ensures PermissionKey(p) == PermissionKey(q) <==> {p, q} == {ACCESS_FINE_LOCATION, ACCESS_COARSE_LOCATION}
  {
    if {p, q} == {ACCESS_FINE_LOCATION, ACCESS_COARSE_LOCATION} {
      assert p in {ACCESS_FINE_LOCATION, ACCESS_COARSE_LOCATION};
      assert q in {ACCESS_FINE_LOCATION, ACCESS_COARSE_LOCATION};
    }
  }

  lemma PermissionRoundTrip(m: Store, p: string, granted: bool)
    requires PermissionKey(p).Some?
    ensures IsPermissionGranted(WithPermissionStatus(m, p, granted), p) == granted
  {
  }

  /** Granting fine location also reads back as granted coarse location. */
  lemma LocationPermissionsShared(m: Store, granted: bool)
    ensures IsPermissionGranted(WithPermissionStatus(m, ACCESS_FINE_LOCATION, granted), ACCESS_COARSE_LOCATION) == granted
  {
  }

  lemma UnknownPermission(m: Store, p: string, granted: bool)
    requires PermissionKey(p).None?
    ensures WithPermissionStatus(m, p, granted) == m
    ensures !IsPermissionGranted(m, p)
  {
  }

  /** Saving one permission leaves every permission with another key as it was. */
  lemma PermissionFrame(m: Store, p: string, q: string, granted: bool)
    requires PermissionKey(p) != PermissionKey(q)
    ensures IsPermissionGranted(WithPermissionStatus(m, p, granted), q) == IsPermissionGranted(m, q)
  {
  }

  // ---------------------------------------------------------------------
  // Voice guard settings

  function IsVoiceGuardEnabled(m: Store): bool {
    GetBoolean(m, KEY_VOICE_GUARD_ENABLED, true)
  }

  function WithVoiceGuardEnabled(m: Store, enabled: bool): Store {
    m[KEY_VOICE_GUARD_ENABLED := BoolVal(enabled)]
  }

  function UserVoiceprint(m: Store): Option<string> {
    GetString(m, KEY_USER_VOICEPRINT)
  }

  function WithUserVoiceprint(m: Store, hash: string): Store {
    m[KEY_USER_VOICEPRINT := StringVal(hash)]
  }

  function LastDetectionTime(m: Store): int {
    GetLong(m, KEY_LAST_DETECTION_TIME, 0)
  }

  function WithLastDetectionTime(m: Store, time: int): Store {
    m[KEY_LAST_DETECTION_TIME := LongVal(time)]
  }

  function VoiceServiceStatus(m: Store): string {
    GetString(m, KEY_VOICE_SERVICE_STATUS).GetOr(DEFAULT_SERVICE_STATUS)
  }

  function WithVoiceServiceStatus(m: Store, status: string): Store {
    m[KEY_VOICE_SERVICE_STATUS := StringVal(status)]
  }

  /** Each voice guard setter reads back through its getter; the empty file gives the getters' defaults. */
  lemma SettingsRoundTrip(m: Store, b: bool, h: string, t: int, s: string)
    ensures IsVoiceGuardEnabled(WithVoiceGuardEnabled(m, b)) == b
    ensures UserVoiceprint(WithUserVoiceprint(m, h)) == Some(h)
    ensures LastDetectionTime(WithLastDetectionTime(m, t)) == t
    ensures VoiceServiceStatus(WithVoiceServiceStatus(m, s)) == s
    ensures IsVoiceGuardEnabled(map[]) && UserVoiceprint(map[]) == None
    ensures LastDetectionTime(map[]) == 0 && VoiceServiceStatus(map[]) == DEFAULT_SERVICE_STATUS
  {
  }

  /** `getFalseAlarmsToday`: the stored count only when it was stored on `today`. */
  function FalseAlarmsToday(m: Store, today: string): (r: int)
    ensures GetString(m, KEY_FALSE_ALARMS_DATE) != Some(today) ==> r == 0
  {
    if GetString(m, KEY_FALSE_ALARMS_DATE) != Some(today) then 0
    else GetInt(m, KEY_FALSE_ALARMS_TODAY, 0)
  }

  /** `incrementFalseAlarmsToday` */
  function WithFalseAlarm(m: Store, today: string): Store {
    var current := FalseAlarmsToday(m, today);
    m[KEY_FALSE_ALARMS_TODAY := IntVal(current + 1)][KEY_FALSE_ALARMS_DATE := StringVal(today)]
  }

  /** Each increment adds one to today's count; the first one of a new day gives 1. */
  lemma FalseAlarmCounts(m: Store, today: string)
    ensures FalseAlarmsToday(WithFalseAlarm(m, today), today) == FalseAlarmsToday(m, today) + 1
    ensures GetString(m, KEY_FALSE_ALARMS_DATE) != Some(today) ==>
              FalseAlarmsToday(WithFalseAlarm(m, today), today) == 1
  {
  }

  /** Alarms counted on one day read as zero on any other. */
  lemma FalseAlarmsForgotten(m: Store, day: string, later: string)
    requires day != later
    ensures FalseAlarmsToday(WithFalseAlarm(m, day), later) == 0
  {
  }

  /** `getCustomDangerPhrase`: the trimmed stored phrase when it has five characters or more, else the default. */
  function CustomDangerPhrase(m: Store): (r: string)
    ensures |r| >= MIN_PHRASE_LENGTH
  {
    var value := Trim(GetString(m, KEY_CUSTOM_DANGER_PHRASE).GetOr(""));
    if |value| >= MIN_PHRASE_LENGTH then value else DEFAULT_DANGER_PHRASE
  }

  /** The phrase read back is the default or already trimmed. */
  lemma PhraseTrimmed(m: Store)
    ensures CustomDangerPhrase(m) == DEFAULT_DANGER_PHRASE || Trim(CustomDangerPhrase(m)) == CustomDangerPhrase(m)
  {
    TrimIdempotent(GetString(m, KEY_CUSTOM_DANGER_PHRASE).GetOr(""));
  }

  /** `saveCustomDangerPhrase`: the trimmed phrase, and only when it has five characters or more. */
  function WithCustomDangerPhrase(m: Store, phrase: string): (r: Store)
    ensures |Trim(phrase)| < MIN_PHRASE_LENGTH ==> r == m
  {
    var cleaned := Trim(phrase);
    if |cleaned| < MIN_PHRASE_LENGTH then m else m[KEY_CUSTOM_DANGER_PHRASE := StringVal(cleaned)]
  }

  /** A phrase that is long enough once trimmed reads back trimmed. */
  lemma DangerPhraseRoundTrip(m: Store, phrase: string)
    requires |Trim(phrase)| >= MIN_PHRASE_LENGTH
    ensures CustomDangerPhrase(WithCustomDangerPhrase(m, phrase)) == Trim(phrase)
  {
    var t := Trim(phrase);
    var w := m[KEY_CUSTOM_DANGER_PHRASE := StringVal(t)];
    assert WithCustomDangerPhrase(m, phrase) == w;
    assert GetString(w, KEY_CUSTOM_DANGER_PHRASE).GetOr("") == t;
    TrimIdempotent(phrase);
    assert Trim(t) == t;
  }

  /** Saving a short phrase keeps whatever phrase was read before. */
  lemma ShortPhraseIgnored(m: Store, phrase: string)
    requires |Trim(phrase)| < MIN_PHRASE_LENGTH
    ensures CustomDangerPhrase(WithCustomDangerPhrase(m, phrase)) == CustomDangerPhrase(m)
  {
  }

  // ---------------------------------------------------------------------
  // clearAllData

  /** After `clearAllData` every getter gives its default. */
  lemma ClearedDefaults(m: Store, today: string, p: string)
    requires m == map[]
    ensures !IsUserLoggedIn(m) && GetUserData(m) == None && EmergencyContacts(m) == []
    ensures !IsPermissionGranted(m, p) && IsVoiceGuardEnabled(m) && UserVoiceprint(m) == None
    ensures LastDetectionTime(m) == 0 && FalseAlarmsToday(m, today) == 0
    ensures VoiceServiceStatus(m) == DEFAULT_SERVICE_STATUS
  {
  }

  lemma ClearedPhrase(m: Store)
    requires m == map[]
    ensures CustomDangerPhrase(m) == DEFAULT_DANGER_PHRASE
  {
    assert GetString(m, KEY_CUSTOM_DANGER_PHRASE).GetOr("") == "";
    assert |Trim("")| == 0;
  }

  // ---------------------------------------------------------------------
  // The manager object

  class SharedPreferencesManager {
    var store: Store

    constructor (initial: Store)
      ensures store == initial
    {
      store := initial;
    }

    method SetLoggedIn(status: bool)
      modifies this
      ensures store == WithLoggedIn(old(store), status)
    {
      store := store[KEY_USER_LOGGED_IN := BoolVal(status)];
    }

    method SaveUserData(userName: string, userPhone: string, userGender: string,
                        userDOB: string, userAddress: string, userCity: string)
      modifies this
      ensures store == WithUserData(old(store), User(userName, userPhone, userGender, userDOB, userAddress, userCity))
    {
      store := store[KEY_USER_NAME := StringVal(userName)];
      store := store[KEY_USER_PHONE := StringVal(userPhone)];
      store := store[KEY_USER_GENDER := StringVal(userGender)];
      store := store[KEY_USER_DOB := StringVal(userDOB)];
      store := store[KEY_USER_ADDRESS := StringVal(userAddress)];
      store := store[KEY_USER_CITY := StringVal(userCity)];
    }

    method SaveEmergencyContacts(contacts: seq<EmergencyContact>)
      modifies this
      ensures store == WithEmergencyContacts(old(store), contacts)
    {
      store := store[KEY_EMERGENCY_CONTACTS := ContactsJson(contacts)];
    }

    method SavePermissionStatus(permission: string, granted: bool)
      modifies this
      ensures store == WithPermissionStatus(old(store), permission, granted)
    {
      var key := PermissionKey(permission);
      if key.Some? {
        store := store[key.value := BoolVal(granted)];
      }
    }

    method ClearAllData()
      modifies this
      ensures store == map[]
    {
      store := map[];
    }

    method SetVoiceGuardEnabled(enabled: bool)
      modifies this
      ensures store == WithVoiceGuardEnabled(old(store), enabled)
    {
      store := store[KEY_VOICE_GUARD_ENABLED := BoolVal(enabled)];
    }

    method SaveUserVoiceprint(hash: string)
      modifies this
      ensures store == WithUserVoiceprint(old(store), hash)
    {
      store := store[KEY_USER_VOICEPRINT := StringVal(hash)];
    }

    method SetLastDetectionTime(time: int)
      modifies this
      ensures store == WithLastDetectionTime(old(store), time)
    {
      store := store[KEY_LAST_DETECTION_TIME := LongVal(time)];
    }

    method IncrementFalseAlarmsToday(today: string)
      modifies this
      ensures store == WithFalseAlarm(old(store), today)
    {
      var current := FalseAlarmsToday(store, today);
      store := store[KEY_FALSE_ALARMS_TODAY := IntVal(current + 1)][KEY_FALSE_ALARMS_DATE := StringVal(today)];
    }

    method SetVoiceServiceStatus(status: string)
      modifies this
      ensures store == WithVoiceServiceStatus(old(store), status)
    {
      store := store[KEY_VOICE_SERVICE_STATUS := StringVal(status)];
    }

    method SaveCustomDangerPhrase(phrase: string)
      modifies this
      ensures store == WithCustomDangerPhrase(old(store), phrase)
    {
      var cleaned := Trim(phrase);
      if |cleaned| < MIN_PHRASE_LENGTH {
        return;
      }
      store := store[KEY_CUSTOM_DANGER_PHRASE := StringVal(cleaned)];
    }
  }
}
