/**
 * The Track Me Home session controller (`TrackMeServiceManager`): starting
 * and stopping a session, arrival, arming a check-in and resolving it once
 * through the `pendingCheckInResponded` compare-and-set, and escalation.
 *
 * `Manager` is the abstract state: the controller's fields, its persisted
 * preferences, and what it has sent out (overlay events, the `homeReached`
 * and `emergencyTriggered` signals, SMS alerts and calls, as counters and
 * logs). Each operation is a function on `Manager`; class
 * `TrackMeServiceManager` implements them on mutable fields and is proved
 * against them.
 */
module SessionManager {
  import opened Common
  import opened Records
  import opened KeyValue
  import opened TrackMePrefs

  /** The number `triggerEmergency` dials. */
  const EMERGENCY_NUMBER := "8807659591"
  /** Welcome message used when the string resource cannot be read. */
  const WELCOME_HOME_FALLBACK := "Welcome home! Tracking stopped safely \U{2713}"

  /** What the overlay is told to show for one check-in. */
  datatype CheckInOverlayEvent = CheckInOverlayEvent(
    index: int,
    timeoutAt: int,
    lat: real,
    lng: real,
    address: Option<string>)

  datatype Manager = Manager(
    prefs: Store,
    currentCheckInIndex: int,
    responded: bool,
    isTracking: bool,
    checkInCount: int,
    welcomeHomeMessage: Option<string>,
    overlayEvents: seq<CheckInOverlayEvent>,
    homeReachedEvents: nat,
    emergencyEvents: nat,
    alertsSent: nat,
    callsPlaced: seq<string>)

  // ---------------------------------------------------------------------
  // The operations

  /** A fresh controller: the observable flags start from the persisted ones, the response flag false. */
  function Initial(prefs: Store): Manager {
    Manager(prefs, 0, false, IsTrackingActive(prefs), CheckInCount(prefs), None, [], 0, 0, 0, [])
  }

  /** `startTracking(now)` */
  function Started(m: Manager, now: int): Manager {
    if m.isTracking then m
    else
      var p := WithCheckInCount(WithTrackingStartTime(WithTrackingActive(m.prefs, true), now), 0);
      m.(prefs := p, checkInCount := 0, isTracking := true)
  }

  /** `stopTracking()` */
  function Stopped(m: Manager): Manager {
    m.(prefs := Reset(WithTrackingActive(m.prefs, false)), isTracking := false, welcomeHomeMessage := None)
  }

  /** `onHomeReached()`, `resource` being the `welcome_home` string where it can be read. */
  function Arrived(m: Manager, resource: Option<string>): Manager {
    m.(prefs := WithTrackingActive(m.prefs, false),
       isTracking := false,
       welcomeHomeMessage := Some(resource.GetOr(WELCOME_HOME_FALLBACK)),
       homeReachedEvents := m.homeReachedEvents + 1)
  }

  /** `scheduleCheckIn(index, timeoutAt, lat, lng, address)` */
  function Scheduled(m: Manager, index: int, timeoutAt: int, lat: real, lng: real, address: Option<string>): Manager {
    m.(currentCheckInIndex := index,
       responded := false,
       overlayEvents := m.overlayEvents + [CheckInOverlayEvent(index, timeoutAt, lat, lng, address)])
  }

  /** `triggerEmergency()`: SMS alert, call, `emergencyTriggered` signal; no guard of its own. */
  function Triggered(m: Manager): Manager {
    m.(alertsSent := m.alertsSent + 1,
       callsPlaced := m.callsPlaced + [EMERGENCY_NUMBER],
       emergencyEvents := m.emergencyEvents + 1)
  }

  /** `onCheckInResponse(response, lat, lng, address)` at time `now`. */
  function Responded(m: Manager, response: CheckInResponse, lat: real, lng: real,
                     address: Option<string>, now: int): Manager {
    if m.responded then m
    else
      var p1 := WithCheckIn(m.prefs, CheckIn(now, response, lat, lng, address));
      var p2 := WithCheckInCount(p1, CheckInCount(p1) + 1);
      var m1 := m.(responded := true, prefs := p2, checkInCount := CheckInCount(p2));
      if response == Yes then m1 else Triggered(m1)
  }

  /** `markSafeFromNotification()`, given the service's last known location. */
  function MarkedSafe(m: Manager, lat: real, lng: real, address: Option<string>, now: int): Manager {
    if m.responded then m else Responded(m, Yes, lat, lng, address, now)
  }

  // ---------------------------------------------------------------------
  // One call at a time

  lemma StartedEffect(m: Manager, now: int)
    ensures m.isTracking ==> Started(m, now) == m
    ensures !m.isTracking ==>
      var s := Started(m, now);
      && s.isTracking && IsTrackingActive(s.prefs)
      && s.checkInCount == 0 && CheckInCount(s.prefs) == 0
      && TrackingStartTime(s.prefs) == now
      && History(s.prefs) == History(m.prefs)
      && s.responded == m.responded
      && s.overlayEvents == m.overlayEvents && s.alertsSent == m.alertsSent
  {
  }

  lemma StoppedEffect(m: Manager)
    ensures var s := Stopped(m);
      && !s.isTracking && s.welcomeHomeMessage == None
      && !IsTrackingActive(s.prefs) && CheckInCount(s.prefs) == 0 && TrackingStartTime(s.prefs) == 0
      && History(s.prefs) == History(m.prefs)
      && s.responded == m.responded && s.checkInCount == m.checkInCount
      && s.alertsSent == m.alertsSent && s.overlayEvents == m.overlayEvents
  {
  }

  lemma ArrivedEffect(m: Manager, resource: Option<string>)
    ensures var s := Arrived(m, resource);
      && !s.isTracking && !IsTrackingActive(s.prefs)
      && s.welcomeHomeMessage.Some?
      && (resource.None? ==> s.welcomeHomeMessage == Some(WELCOME_HOME_FALLBACK))
      && s.homeReachedEvents == m.homeReachedEvents + 1
      && CheckInCount(s.prefs) == CheckInCount(m.prefs) && History(s.prefs) == History(m.prefs)
      && s.alertsSent == m.alertsSent && s.overlayEvents == m.overlayEvents
  {
  }

  lemma ScheduledEffect(m: Manager, index: int, timeoutAt: int, lat: real, lng: real, address: Option<string>)
    ensures var s := Scheduled(m, index, timeoutAt, lat, lng, address);
      && s.currentCheckInIndex == index && !s.responded
      && |s.overlayEvents| == |m.overlayEvents| + 1
      && s.overlayEvents[..|m.overlayEvents|] == m.overlayEvents
      && s.overlayEvents[|m.overlayEvents|] == CheckInOverlayEvent(index, timeoutAt, lat, lng, address)
      && s.prefs == m.prefs && s.isTracking == m.isTracking && s.alertsSent == m.alertsSent
  {
  }

  /** A response after the flag is set does nothing at all. */
  lemma RespondedLate(m: Manager, response: CheckInResponse, lat: real, lng: real, address: Option<string>, now: int)
    requires m.responded
    ensures Responded(m, response, lat, lng, address, now) == m
  {
  }

  /**
   * An accepted response sets the flag, puts exactly one record at the head of
   * the history, increments the persisted count by one, publishes the
   * persisted count, and escalates once exactly when it is NO or TIMEOUT.
   */
  lemma RespondedAccepted(m: Manager, response: CheckInResponse, lat: real, lng: real,
                          address: Option<string>, now: int)
    requires !m.responded
    ensures var s := Responded(m, response, lat, lng, address, now);
      var c := CheckIn(now, response, lat, lng, address);
      && s.responded
      && History(s.prefs) == AddedToHistory(History(m.prefs), Normalized(c))
      && CheckInCount(s.prefs) == CheckInCount(m.prefs) + 1
      && s.checkInCount == CheckInCount(s.prefs)
      && s.alertsSent == m.alertsSent + (if response == Yes then 0 else 1)
      && s.emergencyEvents == m.emergencyEvents + (if response == Yes then 0 else 1)
      && s.callsPlaced == m.callsPlaced + (if response == Yes then [] else [EMERGENCY_NUMBER])
      && s.isTracking == m.isTracking && IsTrackingActive(s.prefs) == IsTrackingActive(m.prefs)
      && s.overlayEvents == m.overlayEvents && s.currentCheckInIndex == m.currentCheckInIndex
  {
    var c := CheckIn(now, response, lat, lng, address);
    WithCheckInHistory(m.prefs, c);
  }

  /** The notification's SAFE action is a YES response, and nothing once the flag is set. */
  lemma MarkedSafeIsYes(m: Manager, lat: real, lng: real, address: Option<string>, now: int)
    ensures MarkedSafe(m, lat, lng, address, now) == Responded(m, Yes, lat, lng, address, now)
    ensures m.responded ==> MarkedSafe(m, lat, lng, address, now) == m
    ensures MarkedSafe(m, lat, lng, address, now).alertsSent == m.alertsSent
  {
  }

  /** Each `triggerEmergency` call escalates again: there is no gate. */
  lemma TriggeredTwice(m: Manager)
    ensures Triggered(Triggered(m)).alertsSent == m.alertsSent + 2
    ensures Triggered(Triggered(m)).callsPlaced == m.callsPlaced + [EMERGENCY_NUMBER, EMERGENCY_NUMBER]
  {
  }

  /** The flag starts false: a response is accepted and recorded before any check-in was scheduled. */
  lemma ResponseBeforeAnySchedule(prefs: Store, lat: real, lng: real, address: Option<string>, now: int)
    ensures var s := Responded(Initial(prefs), Yes, lat, lng, address, now);
      s.responded && CheckInCount(s.prefs) == CheckInCount(prefs) + 1 && s.overlayEvents == []
  {
    RespondedAccepted(Initial(prefs), Yes, lat, lng, address, now);
  }

  // ---------------------------------------------------------------------
  // Sequences of calls

  datatype Call =
    | StartTracking(now: int)
    | StopTracking
    | OnHomeReached(resource: Option<string>)
    | ScheduleCheckIn(index: int, timeoutAt: int, lat: real, lng: real, address: Option<string>)
    | OnCheckInResponse(response: CheckInResponse, lat: real, lng: real, address: Option<string>, now: int)
    | MarkSafeFromNotification(lat: real, lng: real, address: Option<string>, now: int)
    | TriggerEmergency

  function Apply(m: Manager, c: Call): Manager {
    match c
    case StartTracking(now) => Started(m, now)
    case StopTracking => Stopped(m)
    case OnHomeReached(res) => Arrived(m, res)
    case ScheduleCheckIn(i, t, lat, lng, a) => Scheduled(m, i, t, lat, lng, a)
    case OnCheckInResponse(r, lat, lng, a, now) => Responded(m, r, lat, lng, a, now)
    case MarkSafeFromNotification(lat, lng, a, now) => MarkedSafe(m, lat, lng, a, now)
    case TriggerEmergency => Triggered(m)
  }

  function Run(m: Manager, cs: seq<Call>): Manager
    decreases |cs|
  {
    if cs == [] then m else Run(Apply(m, cs[0]), cs[1..])
  }

  /** The call is a response (from the overlay or the notification) that the flag lets through. */
  predicate Takes(m: Manager, c: Call) {
    (c.OnCheckInResponse? || c.MarkSafeFromNotification?) && !m.responded
  }

  /** How many of the calls `cs`, run from `m`, are responses that take effect. */
  function TakenCount(m: Manager, cs: seq<Call>): nat
    decreases |cs|
  {
    if cs == [] then 0
    else (if Takes(m, cs[0]) then 1 else 0) + TakenCount(Apply(m, cs[0]), cs[1..])
  }

  predicate NoSchedule(cs: seq<Call>) {
    forall i :: 0 <= i < |cs| ==> !cs[i].ScheduleCheckIn?
  }

  /** Only `scheduleCheckIn` clears the flag: start, stop and arrival do not. */
  lemma {:induction false} FlagStaysSet(m: Manager, cs: seq<Call>)
    requires m.responded && NoSchedule(cs)
    ensures Run(m, cs).responded
    ensures TakenCount(m, cs) == 0
    decreases |cs|
  {
    if cs != [] {
      FlagStaysSet(Apply(m, cs[0]), cs[1..]);
    }
  }

  /** Between two `scheduleCheckIn` calls at most one response takes effect. */
  lemma {:induction false} AtMostOneResponse(m: Manager, cs: seq<Call>)
    requires NoSchedule(cs)
    ensures TakenCount(m, cs) <= (if m.responded then 0 else 1)
    decreases |cs|
  {
    if cs != [] {
      var m1 := Apply(m, cs[0]);
      if Takes(m, cs[0]) {
        assert m1.responded;
        FlagStaysSet(m1, cs[1..]);
      } else {
        assert m.responded ==> m1.responded;
        AtMostOneResponse(m1, cs[1..]);
      }
    }
  }

  predicate NoDirectTrigger(cs: seq<Call>) {
    forall i :: 0 <= i < |cs| ==> !cs[i].TriggerEmergency?
  }

  lemma {:induction false} NoEscalationOnceResponded(m: Manager, cs: seq<Call>)
    requires m.responded && NoSchedule(cs) && NoDirectTrigger(cs)
    ensures Run(m, cs).alertsSent == m.alertsSent
    decreases |cs|
  {
    if cs != [] {
      FlagStaysSet(m, cs[..1]);
      NoEscalationOnceResponded(Apply(m, cs[0]), cs[1..]);
    }
  }

  /**
   * Without direct `triggerEmergency` calls, the responses between two
   * `scheduleCheckIn` calls escalate at most once.
   */
  lemma {:induction false} AtMostOneEscalation(m: Manager, cs: seq<Call>)
    requires NoSchedule(cs) && NoDirectTrigger(cs)
    ensures Run(m, cs).alertsSent <= m.alertsSent + 1
    ensures m.responded ==> Run(m, cs).alertsSent == m.alertsSent
    decreases |cs|
  {
    if m.responded {
      NoEscalationOnceResponded(m, cs);
    } else if cs != [] {
      var m1 := Apply(m, cs[0]);
      assert m1.alertsSent <= m.alertsSent + 1;
      if m1.responded {
        NoEscalationOnceResponded(m1, cs[1..]);
      } else {
        assert m1.alertsSent == m.alertsSent;
        AtMostOneEscalation(m1, cs[1..]);
      }
    }
  }

  /** The published tracking flag always equals the persisted one. */
  predicate FlagMirrored(m: Manager) {
    m.isTracking == IsTrackingActive(m.prefs)
  }

  lemma {:induction false} FlagMirroredKept(m: Manager, cs: seq<Call>)
    requires FlagMirrored(m)
    ensures FlagMirrored(Run(m, cs))
    decreases |cs|
  {
    if cs != [] {
      match cs[0] {
        case OnCheckInResponse(r, lat, lng, a, now) =>
          if !m.responded { RespondedAccepted(m, r, lat, lng, a, now); }
        case MarkSafeFromNotification(lat, lng, a, now) =>
          if !m.responded { RespondedAccepted(m, Yes, lat, lng, a, now); }
        case _ =>
      }
      FlagMirroredKept(Apply(m, cs[0]), cs[1..]);
    }
  }

  // ---------------------------------------------------------------------
  // The controller object

  class TrackMeServiceManager {
    const prefs: TrackMePreferences
    var currentCheckInIndex: int
    var pendingCheckInResponded: bool
    var isTracking: bool
    var checkInCount: int
    var welcomeHomeMessage: Option<string>
    var overlayEvents: seq<CheckInOverlayEvent>
    var homeReachedEvents: nat
    var emergencyEvents: nat
    var alertsSent: nat
    var callsPlaced: seq<string>

    function Abs(): Manager
      reads this, prefs
    {
      Manager(prefs.store, currentCheckInIndex, pendingCheckInResponded, isTracking, checkInCount,
              welcomeHomeMessage, overlayEvents, homeReachedEvents, emergencyEvents, alertsSent, callsPlaced)
    }

    constructor (p: TrackMePreferences)
      ensures prefs == p && Abs() == Initial(p.store)
    {
      prefs := p;
      currentCheckInIndex := 0;
      pendingCheckInResponded := false;
      isTracking := IsTrackingActive(p.store);
      checkInCount := CheckInCount(p.store);
      welcomeHomeMessage := None;
      overlayEvents := [];
      homeReachedEvents := 0;
      emergencyEvents := 0;
      alertsSent := 0;
      callsPlaced := [];
    }

    method StartTracking(now: int)
      modifies this, prefs
      ensures Abs() == Started(old(Abs()), now)
    {
      if isTracking {
        return;
      }
      prefs.SetTrackingActive(true);
      prefs.SetTrackingStartTime(now);
      prefs.SetCheckInCount(0);
      checkInCount := 0;
      isTracking := true;
    }

    method StopTracking()
      modifies this, prefs
      ensures Abs() == Stopped(old(Abs()))
    {
      prefs.SetTrackingActive(false);
      prefs.ResetTrackingState();
      isTracking := false;
      welcomeHomeMessage := None;
    }

    method OnHomeReached(resource: Option<string>)
      modifies this, prefs
      ensures Abs() == Arrived(old(Abs()), resource)
    {
      prefs.SetTrackingActive(false);
      isTracking := false;
      welcomeHomeMessage := Some(if resource.Some? then resource.value else WELCOME_HOME_FALLBACK);
      homeReachedEvents := homeReachedEvents + 1;
    }

    method ScheduleCheckIn(index: int, timeoutAt: int, lat: real, lng: real, address: Option<string>)
      modifies this
      ensures Abs() == Scheduled(old(Abs()), index, timeoutAt, lat, lng, address)
    {
      currentCheckInIndex := index;
      pendingCheckInResponded := false;
      overlayEvents := overlayEvents + [CheckInOverlayEvent(index, timeoutAt, lat, lng, address)];
    }

    method OnCheckInResponse(response: CheckInResponse, lat: real, lng: real, address: Option<string>, now: int)
      modifies this, prefs
      ensures Abs() == Responded(old(Abs()), response, lat, lng, address, now)
    {
      // compareAndSet(false, true)
      if pendingCheckInResponded {
        return;
      }
      ghost var m0 := Abs();
      pendingCheckInResponded := true;
      prefs.AddCheckIn(CheckIn(now, response, lat, lng, address));
      ghost var p1 := prefs.store;
      prefs.SetCheckInCount(CheckInCount(prefs.store) + 1);
      checkInCount := CheckInCount(prefs.store);
      assert Abs() == m0.(responded := true, prefs := WithCheckInCount(p1, CheckInCount(p1) + 1),
                          checkInCount := CheckInCount(prefs.store));
      if response != Yes {
        TriggerEmergency();
      }
    }

    method TriggerEmergency()
      modifies this
      ensures Abs() == Triggered(old(Abs()))
    {
      alertsSent := alertsSent + 1;
      callsPlaced := callsPlaced + [EMERGENCY_NUMBER];
      emergencyEvents := emergencyEvents + 1;
    }

    method MarkSafeFromNotification(lastLat: real, lastLng: real, lastAddress: Option<string>, now: int)
      modifies this, prefs
      ensures Abs() == MarkedSafe(old(Abs()), lastLat, lastLng, lastAddress, now)
    {
      if pendingCheckInResponded {
        return;
      }
      OnCheckInResponse(Yes, lastLat, lastLng, lastAddress, now);
    }
  }
}
