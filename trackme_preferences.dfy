/**
 * The "helpnow_trackme" preferences file: the tracking flag, start time and
 * check-in count, the home coordinates, and the check-in history, a JSON
 * list kept newest first and capped at ten entries.
 *
 * Each setter is a pure store transformer (`WithTrackingActive`, …) that the
 * methods of class `TrackMePreferences` are proved against; the session
 * manager's specification composes the same transformers.
 */
module TrackMePrefs {
  import opened Common
  import opened Records
  import opened KeyValue

  const KEY_IS_TRACKING_ACTIVE := "is_tracking_active"
  const KEY_TRACKING_START_TIME := "tracking_start_time"
  const KEY_CHECK_IN_COUNT := "check_in_count"
  const KEY_HOME_LAT := "home_lat"
  const KEY_HOME_LNG := "home_lng"
  const KEY_CHECK_IN_HISTORY := "check_in_history"
  /** Key under which the location service persists the next check-in time. */
  const KEY_NEXT_CHECK_IN_TIME := "next_check_in_time"
  const MAX_HISTORY := 10

  // ---------------------------------------------------------------------
  // Getters

  function IsTrackingActive(m: Store): bool {
    GetBoolean(m, KEY_IS_TRACKING_ACTIVE, false)
  }

  function TrackingStartTime(m: Store): int {
    GetLong(m, KEY_TRACKING_START_TIME, 0)
  }

  function CheckInCount(m: Store): int {
    GetInt(m, KEY_CHECK_IN_COUNT, 0)
  }

  function HomeLat(m: Store): real {
    GetFloat(m, KEY_HOME_LAT, 0.0)
  }

  function HomeLng(m: Store): real {
    GetFloat(m, KEY_HOME_LNG, 0.0)
  }

  function NextCheckInTime(m: Store): int {
    GetLong(m, KEY_NEXT_CHECK_IN_TIME, 0)
  }

  // ---------------------------------------------------------------------
  // Setters, as store transformers

  function WithTrackingActive(m: Store, v: bool): Store {
    m[KEY_IS_TRACKING_ACTIVE := BoolVal(v)]
  }

  function WithTrackingStartTime(m: Store, t: int): Store {
    m[KEY_TRACKING_START_TIME := LongVal(t)]
  }

  function WithCheckInCount(m: Store, n: int): Store {
    m[KEY_CHECK_IN_COUNT := IntVal(n)]
  }

  function WithHomeLat(m: Store, lat: real): Store {
    m[KEY_HOME_LAT := FloatVal(lat)]
  }

  function WithHomeLng(m: Store, lng: real): Store {
    m[KEY_HOME_LNG := FloatVal(lng)]
  }

  function WithNextCheckInTime(m: Store, t: int): Store {
    m[KEY_NEXT_CHECK_IN_TIME := LongVal(t)]
  }

  /** `resetTrackingState`: one edit writing all three session keys. */
  function Reset(m: Store): Store {
    m[KEY_IS_TRACKING_ACTIVE := BoolVal(false)]
     [KEY_TRACKING_START_TIME := LongVal(0)]
     [KEY_CHECK_IN_COUNT := IntVal(0)]
  }

  // ---------------------------------------------------------------------
  // The history list and its JSON form

  /** The JSON object written for one check-in (a null address becomes `""`). */
  function Encode(c: CheckIn): StoredCheckIn {
    StoredCheckIn(c.timestamp, ResponseName(c.response), c.latitude, c.longitude,
                  c.locationAddress.GetOr(""))
  }

  function EncodeAll(list: seq<CheckIn>): (r: seq<StoredCheckIn>)
    ensures |r| == |list|
    ensures forall i :: 0 <= i < |list| ==> r[i] == Encode(list[i])
  {
    seq(|list|, i requires 0 <= i < |list| => Encode(list[i]))
  }

  /** `optString("locationAddress").takeIf { it.isNotEmpty() }` */
  function DecodeAddress(s: string): (r: Option<string>)
    ensures r == None <==> s == ""
    ensures r.Some? ==> r.value == s
  {
    if s == "" then None else Some(s)
  }

  /** Reading one object back; None where `valueOf` throws on the response name. */
  function Decode(o: StoredCheckIn): Option<CheckIn> {
    match ResponseValueOf(o.response)
    case None => None
    case Some(r) => Some(CheckIn(o.timestamp, r, o.latitude, o.longitude, DecodeAddress(o.locationAddress)))
  }

  /** The whole array; one object that fails to read fails all of it. */
  function DecodeAll(rs: seq<StoredCheckIn>): Option<seq<CheckIn>> {
    if rs == [] then Some([])
    else match (Decode(rs[0]), DecodeAll(rs[1..]))
      case (Some(c), Some(cs)) => Some([c] + cs)
      case _ => None
  }

  /** `getCheckInHistory`: a missing key or any failure to parse reads as the empty list. */
  function History(m: Store): seq<CheckIn> {
    if KEY_CHECK_IN_HISTORY !in m then []
    else match m[KEY_CHECK_IN_HISTORY]
      case HistoryJson(rs) => DecodeAll(rs).GetOr([])
      case _ => []
  }

  /** The list `addCheckIn` writes: `add(0, c)`, then one `removeAt(last)` when it is too long. */
  function AddedToHistory(h: seq<CheckIn>, c: CheckIn): (r: seq<CheckIn>)
    ensures r != [] && r[0] == c
    ensures |h| < MAX_HISTORY ==> r == [c] + h
    ensures |h| >= MAX_HISTORY ==> r == [c] + h[..|h| - 1]
  {
    var list := [c] + h;
    if |list| > MAX_HISTORY then list[..|list| - 1] else list
  }

  /** What a check-in reads back as: an empty address is indistinguishable from none. */
  function Normalized(c: CheckIn): (r: CheckIn)
    ensures r.locationAddress.Some? ==> r.locationAddress.value != ""
    ensures r.locationAddress.None? <==> c.locationAddress.None? || c.locationAddress == Some("")
    ensures r.(locationAddress := c.locationAddress) == c
  {
    if c.locationAddress == Some("") then c.(locationAddress := None) else c
  }

  function NormalizedAll(list: seq<CheckIn>): (r: seq<CheckIn>)
    ensures |r| == |list|
    ensures forall i :: 0 <= i < |list| ==> r[i] == Normalized(list[i])
  {
    seq(|list|, i requires 0 <= i < |list| => Normalized(list[i]))
  }

  /** No record in the list carries the empty address (true of everything read back). */
  predicate NoEmptyAddress(list: seq<CheckIn>) {
    forall i :: 0 <= i < |list| ==> list[i].locationAddress != Some("")
  }

  /** Writing a list and reading it back gives each record with `""` collapsed to null. */
  lemma {:induction false} DecodeEncodeAll(list: seq<CheckIn>)
    ensures DecodeAll(EncodeAll(list)) == Some(NormalizedAll(list))
  {
    if list != [] {
      ValueOfName(list[0].response);
      assert EncodeAll(list)[1..] == EncodeAll(list[1..]);
      DecodeEncodeAll(list[1..]);
      assert NormalizedAll(list) == [Normalized(list[0])] + NormalizedAll(list[1..]);
    }
  }

  /** The round trip is exact on lists without empty addresses. */
  lemma {:induction false} NormalizedNoEmpty(list: seq<CheckIn>)
    requires NoEmptyAddress(list)
    ensures NormalizedAll(list) == list
  {
  }

  /** Everything `DecodeAll` produces has no empty address. */
  lemma {:induction false} DecodedNoEmpty(rs: seq<StoredCheckIn>)
    requires DecodeAll(rs).Some?
    ensures NoEmptyAddress(DecodeAll(rs).value)
  {
    if rs != [] {
      DecodedNoEmpty(rs[1..]);
    }
  }

  lemma HistoryNoEmpty(m: Store)
    ensures NoEmptyAddress(History(m))
  {
    if KEY_CHECK_IN_HISTORY in m && m[KEY_CHECK_IN_HISTORY].HistoryJson? {
      var rs := m[KEY_CHECK_IN_HISTORY].records;
      if DecodeAll(rs).Some? {
        DecodedNoEmpty(rs);
      }
    }
  }

  /** `addCheckIn` as a store transformer. */
  function WithCheckIn(m: Store, c: CheckIn): Store {
    m[KEY_CHECK_IN_HISTORY := HistoryJson(EncodeAll(AddedToHistory(History(m), c)))]
  }

  /** After `addCheckIn(c)` the history reads back as `c` (address normalised) in front of the old one, capped. */
  lemma WithCheckInHistory(m: Store, c: CheckIn)
    ensures History(WithCheckIn(m, c)) == AddedToHistory(History(m), Normalized(c))
  {
    var list := AddedToHistory(History(m), c);
    DecodeEncodeAll(list);
    HistoryNoEmpty(m);
    var h := History(m);
    assert NormalizedAll(list) == AddedToHistory(h, Normalized(c)) by {
      NormalizedNoEmpty(h);
      if |h| >= MAX_HISTORY {
        assert NormalizedAll(list) == [Normalized(c)] + NormalizedAll(h[..|h| - 1]);
        NormalizedNoEmpty(h[..|h| - 1]);
      } else {
        assert NormalizedAll(list) == [Normalized(c)] + NormalizedAll(h);
      }
    }
  }

  /** While the history is within its cap, one `addCheckIn` grows it to at most ten. */
  lemma AddCheckInLength(m: Store, c: CheckIn)
    requires |History(m)| <= MAX_HISTORY
    ensures var n := |History(WithCheckIn(m, c))|;
      n == if |History(m)| + 1 < MAX_HISTORY then |History(m)| + 1 else MAX_HISTORY
  {
    WithCheckInHistory(m, c);
  }

  /** Writing the history touches no other key. */
  lemma WithCheckInKeepsSession(m: Store, c: CheckIn)
    ensures IsTrackingActive(WithCheckIn(m, c)) == IsTrackingActive(m)
    ensures TrackingStartTime(WithCheckIn(m, c)) == TrackingStartTime(m)
    ensures CheckInCount(WithCheckIn(m, c)) == CheckInCount(m)
    ensures HomeLat(WithCheckIn(m, c)) == HomeLat(m) && HomeLng(WithCheckIn(m, c)) == HomeLng(m)
  {
  }

  /** `resetTrackingState` clears the session keys and keeps home and history. */
  lemma ResetEffect(m: Store)
    ensures !IsTrackingActive(Reset(m)) && TrackingStartTime(Reset(m)) == 0 && CheckInCount(Reset(m)) == 0
    ensures HomeLat(Reset(m)) == HomeLat(m) && HomeLng(Reset(m)) == HomeLng(m)
    ensures History(Reset(m)) == History(m)
  {
  }

  /** Each setter round-trips through its getter; an empty file reads false/0/0. */
  lemma SettersRoundTrip(m: Store, b: bool, t: int, n: int)
    ensures IsTrackingActive(WithTrackingActive(m, b)) == b
    ensures TrackingStartTime(WithTrackingStartTime(m, t)) == t
    ensures CheckInCount(WithCheckInCount(m, n)) == n
    ensures !IsTrackingActive(map[]) && TrackingStartTime(map[]) == 0 && CheckInCount(map[]) == 0
  {
  }

  /** A file whose history key is missing, or holds anything but a readable array, has an empty history. */
  lemma CorruptHistoryIsEmpty(m: Store)
    requires KEY_CHECK_IN_HISTORY !in m
          || !m[KEY_CHECK_IN_HISTORY].HistoryJson?
          || DecodeAll(m[KEY_CHECK_IN_HISTORY].records).None?
    ensures History(m) == []
  {
  }

  /** One unreadable object (an unknown response name) empties the whole list. */
  lemma {:induction false} BadRecordEmptiesAll(rs: seq<StoredCheckIn>, k: nat)
    requires k < |rs| && ResponseValueOf(rs[k].response).None?
    ensures DecodeAll(rs).None?
  {
    if k > 0 {
      BadRecordEmptiesAll(rs[1..], k - 1);
    }
  }

  /** The store after `addCheckIn` of each of `cs`, first to last. */
  function AddAll(m: Store, cs: seq<CheckIn>): Store
    decreases |cs|
  {
    if cs == [] then m else AddAll(WithCheckIn(m, cs[0]), cs[1..])
  }

  function Reversed<T>(s: seq<T>): (r: seq<T>)
    ensures |r| == |s|
    ensures forall i :: 0 <= i < |s| ==> r[i] == s[|s| - 1 - i]
  {
    seq(|s|, i requires 0 <= i < |s| => s[|s| - 1 - i])
  }

  /** The first (newest) ten entries of a list. */
  function Newest(s: seq<CheckIn>): (r: seq<CheckIn>)
    ensures |r| <= MAX_HISTORY
  {
    if |s| <= MAX_HISTORY then s else s[..MAX_HISTORY]
  }

  lemma NewestConcat(x: seq<CheckIn>, y: seq<CheckIn>)
    ensures Newest(x + Newest(y)) == Newest(x + y)
  {
    if |y| > MAX_HISTORY {
      if |x| >= MAX_HISTORY {
        assert (x + Newest(y))[..MAX_HISTORY] == x[..MAX_HISTORY] == (x + y)[..MAX_HISTORY];
      } else {
        assert (x + Newest(y))[..MAX_HISTORY] == (x + y)[..MAX_HISTORY];
      }
    }
  }

  lemma AddedIsNewest(h: seq<CheckIn>, c: CheckIn)
    requires |h| <= MAX_HISTORY
    ensures AddedToHistory(h, c) == Newest([c] + h)
  {
  }

  /** The history lists `addCheckIn` produces for `cs`, first to last. */
  function Folded(h: seq<CheckIn>, cs: seq<CheckIn>): seq<CheckIn>
    decreases |cs|
  {
    if cs == [] then h else Folded(AddedToHistory(h, Normalized(cs[0])), cs[1..])
  }

  lemma {:induction false} AddAllFolded(m: Store, cs: seq<CheckIn>)
    ensures History(AddAll(m, cs)) == Folded(History(m), cs)
    decreases |cs|
  {
    if cs != [] {
      WithCheckInHistory(m, cs[0]);
      AddAllFolded(WithCheckIn(m, cs[0]), cs[1..]);
    }
  }

  lemma NormalizedReversedCons(cs: seq<CheckIn>)
    requires cs != []
    ensures NormalizedAll(Reversed(cs)) == NormalizedAll(Reversed(cs[1..])) + [Normalized(cs[0])]
  {
  }

  /**
   * Adding `cs` one by one to a history of at most ten gives the ten newest
   * of `Reversed(cs) + h`, each new record normalised.
   */
  lemma {:induction false} FoldedIsNewest(h: seq<CheckIn>, cs: seq<CheckIn>)
    requires |h| <= MAX_HISTORY
    ensures Folded(h, cs) == Newest(NormalizedAll(Reversed(cs)) + h)
    decreases |cs|
  {
    if cs == [] {
      assert NormalizedAll(Reversed(cs)) + h == h;
    } else {
      var n0 := Normalized(cs[0]);
      var h1 := AddedToHistory(h, n0);
      var x := NormalizedAll(Reversed(cs[1..]));
      calc {
        Folded(h, cs);
        Folded(h1, cs[1..]);
        { FoldedIsNewest(h1, cs[1..]); }
        Newest(x + h1);
        { AddedIsNewest(h, n0); }
        Newest(x + Newest([n0] + h));
        { NewestConcat(x, [n0] + h); }
        Newest(x + ([n0] + h));
        { assert x + ([n0] + h) == (x + [n0]) + h; }
        Newest((x + [n0]) + h);
        { NormalizedReversedCons(cs); }
        Newest(NormalizedAll(Reversed(cs)) + h);
      }
    }
  }

  lemma ReversedNoEmpty(cs: seq<CheckIn>)
    requires NoEmptyAddress(cs)
    ensures NoEmptyAddress(Reversed(cs))
  {
    var r := Reversed(cs);
    forall i | 0 <= i < |r| ensures r[i].locationAddress != Some("") {
      assert r[i] == cs[|cs| - 1 - i];
    }
  }

  /** The first ten of the reversed fifteen are the last ten, reversed. */
  lemma ReversedLastTen(cs: seq<CheckIn>)
    requires |cs| == 15
    ensures Reversed(cs)[..MAX_HISTORY] == Reversed(cs[5..])
  {
    var a, b := Reversed(cs)[..MAX_HISTORY], Reversed(cs[5..]);
    forall i | 0 <= i < MAX_HISTORY ensures a[i] == b[i] {
      assert a[i] == cs[14 - i];
      assert b[i] == cs[5..][9 - i];
    }
  }

  /** Fifteen check-ins from an empty history leave exactly the ten newest, newest first. */
  lemma FifteenKeepsTen(cs: seq<CheckIn>)
    requires |cs| == 15 && NoEmptyAddress(cs)
    ensures History(AddAll(map[], cs)) == Reversed(cs[5..])
  {
    var empty: Store := map[];
    assert History(empty) == [];
    AddAllFolded(empty, cs);
    FoldedIsNewest([], cs);
    ReversedNoEmpty(cs);
    NormalizedNoEmpty(Reversed(cs));
    var r := Reversed(cs);
    assert r + [] == r;
    ReversedLastTen(cs);
  }

  // ---------------------------------------------------------------------
  // The preferences object

  class TrackMePreferences {
    var store: Store

    constructor (initial: Store)
      ensures store == initial
    {
      store := initial;
    }

    function GetCheckInHistory(): (h: seq<CheckIn>)
      reads this
      ensures NoEmptyAddress(h)
    {
      HistoryNoEmpty(store);
      History(store)
    }

    method SetTrackingActive(v: bool)
      modifies this
      ensures store == WithTrackingActive(old(store), v)
    {
      store := store[KEY_IS_TRACKING_ACTIVE := BoolVal(v)];
    }

    method SetTrackingStartTime(t: int)
      modifies this
      ensures store == WithTrackingStartTime(old(store), t)
    {
      store := store[KEY_TRACKING_START_TIME := LongVal(t)];
    }

    method SetCheckInCount(n: int)
      modifies this
      ensures store == WithCheckInCount(old(store), n)
    {
      store := store[KEY_CHECK_IN_COUNT := IntVal(n)];
    }

    method SetHomeLat(lat: real)
      modifies this
      ensures store == WithHomeLat(old(store), lat)
    {
      store := store[KEY_HOME_LAT := FloatVal(lat)];
    }

    method SetHomeLng(lng: real)
      modifies this
      ensures store == WithHomeLng(old(store), lng)
    {
      store := store[KEY_HOME_LNG := FloatVal(lng)];
    }

    method SetNextCheckInTime(t: int)
      modifies this
      ensures store == WithNextCheckInTime(old(store), t)
    {
      store := store[KEY_NEXT_CHECK_IN_TIME := LongVal(t)];
    }

    method ResetTrackingState()
      modifies this
      ensures store == Reset(old(store))
    {
      store := store[KEY_IS_TRACKING_ACTIVE := BoolVal(false)]
                    [KEY_TRACKING_START_TIME := LongVal(0)]
                    [KEY_CHECK_IN_COUNT := IntVal(0)];
    }

    /** `addCheckIn`: prepend, drop the last when over the cap, write the JSON array. */
    method AddCheckIn(c: CheckIn)
      modifies this
      ensures store == WithCheckIn(old(store), c)
      ensures GetCheckInHistory() == AddedToHistory(old(GetCheckInHistory()), Normalized(c))
    {
      var list := GetCheckInHistory();
      list := [c] + list;
      if |list| > MAX_HISTORY {
        list := list[..|list| - 1];
      }
      var json := ToJson(list);
      store := store[KEY_CHECK_IN_HISTORY := HistoryJson(json)];
      WithCheckInHistory(old(store), c);
    }
  }

  /** The `forEach` that builds the JSON array, one object per check-in, in order. */
  method ToJson(list: seq<CheckIn>) returns (json: seq<StoredCheckIn>)
    ensures json == EncodeAll(list)
  {
    json := [];
    var i := 0;
    while i < |list|
      invariant 0 <= i <= |list|
      invariant json == EncodeAll(list[..i])
    {
      json := json + [Encode(list[i])];
      i := i + 1;
    }
    assert list[..i] == list;
  }
}
