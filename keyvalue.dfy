/**
 * An Android SharedPreferences file as a map from key to typed value, with
 * the typed getters `getBoolean`, `getInt`, `getLong`, `getFloat` and
 * `getString` and their default arguments.
 *
 * A getter returns the default when the key is absent or holds a value of
 * another type (where Android throws ClassCastException, which every getter
 * of the core either catches with the same default or never meets, because
 * each key is written with one type only).
 */
module KeyValue {
  import opened Common
  import opened Records

  datatype PrefValue =
    | BoolVal(b: bool)
    | IntVal(i: int)
    | LongVal(l: int)
    | FloatVal(f: real)
    | StringVal(s: string)
      /** String holding the JSON array text of these check-in objects. */
    | HistoryJson(records: seq<StoredCheckIn>)
      /** String holding the JSON text Gson writes for this contact list. */
    | ContactsJson(contacts: seq<EmergencyContact>)

  type Store = map<string, PrefValue>

  function GetBoolean(m: Store, key: string, default: bool): (r: bool)
    ensures key !in m ==> r == default
  {
    if key in m && m[key].BoolVal? then m[key].b else default
  }

  function GetInt(m: Store, key: string, default: int): (r: int)
    ensures key !in m ==> r == default
  {
    if key in m && m[key].IntVal? then m[key].i else default
  }

  function GetLong(m: Store, key: string, default: int): (r: int)
    ensures key !in m ==> r == default
  {
    if key in m && m[key].LongVal? then m[key].l else default
  }

  function GetFloat(m: Store, key: string, default: real): (r: real)
    ensures key !in m ==> r == default
  {
    if key in m && m[key].FloatVal? then m[key].f else default
  }

  /** `getString(key, null)` */
  function GetString(m: Store, key: string): (r: Option<string>)
    ensures key !in m ==> r == None
  {
    if key in m && m[key].StringVal? then Some(m[key].s) else None
  }
}
