/**
 * The Track Me Home foreground location service (`TrackMeService`): its
 * scheduler state, the notification actions, and `checkHomeAndCheckIn`,
 * which runs on every location fix. Arrival at home takes precedence;
 * otherwise a check-in is armed every five minutes, each with a two-minute
 * deadline.
 *
 * The geofence test is a parameter (`Geofence`), the clock reading `now` is
 * a parameter of every step, and the service's `lastKnown…` companion values
 * are fields of the service.
 */
module LocationService {
  import opened Common
  import opened Records
  import opened KeyValue
  import opened TrackMePrefs
  import opened SessionManager

  /** 5 × 60 × 1000 ms between check-ins. */
  const CHECK_IN_INTERVAL_MS := 300000
  /** 2 × 60 × 1000 ms for the user to answer one. */
  const CHECK_IN_TIMEOUT_MS := 120000
  const ACTION_STOP := "com.helpnow.trackme.STOP"
  const ACTION_SAFE := "com.helpnow.trackme.SAFE"

  /** The last location of a `LocationResult`. */
  datatype Location = Location(latitude: real, longitude: real)

  /** `isWithinHomeRadius(lat, lng, homeLat, homeLng)`, the haversine test, left abstract. */
  type Geofence = (real, real, real, real) -> bool

  datatype Service = Service(
    mgr: Manager,
    serviceStartTime: int,
    nextCheckInAt: int,
    checkInIndex: int,
    lastKnownLat: real,
    lastKnownLng: real,
    lastKnownAddress: Option<string>,
    callbackRegistered: bool,
    selfStopped: bool)

  // ---------------------------------------------------------------------
  // The operations

  /** `onCreate()` at time `now`; the `lastKnown…` values outlive the service object. */
  function Created(mgr: Manager, now: int, lat: real, lng: real, address: Option<string>): Service {
    Service(mgr, now, now + CHECK_IN_INTERVAL_MS, 0, lat, lng, address, false, false)
  }

  /** `stopTrackingAndStopSelf()` */
  function StoppedSelf(s: Service): Service {
    s.(callbackRegistered := false, mgr := Stopped(s.mgr), selfStopped := true)
  }

  /** Both home coordinates non-zero and the last fix inside the radius. */
  predicate AtHome(s: Service, within: Geofence) {
    var homeLat := HomeLat(s.mgr.prefs);
    var homeLng := HomeLng(s.mgr.prefs);
    homeLat != 0.0 && homeLng != 0.0 && within(s.lastKnownLat, s.lastKnownLng, homeLat, homeLng)
  }

  /** `checkHomeAndCheckIn()` at time `now`; `resource` is the welcome string passed to `onHomeReached`. */
  function Checked(s: Service, now: int, within: Geofence, resource: Option<string>): Service {
    if AtHome(s, within) then
      StoppedSelf(s.(mgr := Arrived(s.mgr, resource)))
    else if now >= s.nextCheckInAt then
      var index := s.checkInIndex + 1;
      var next := now + CHECK_IN_INTERVAL_MS;
      var m1 := Scheduled(s.mgr, index, now + CHECK_IN_TIMEOUT_MS, s.lastKnownLat, s.lastKnownLng, s.lastKnownAddress);
      s.(checkInIndex := index, nextCheckInAt := next, mgr := m1.(prefs := WithNextCheckInTime(m1.prefs, next)))
    else
      s
  }

  /** The location callback's `onLocationResult`; a result without a location is ignored. */
  function Located(s: Service, loc: Option<Location>, now: int, within: Geofence, resource: Option<string>): Service {
    match loc
    case None => s
    case Some(l) =>
      Checked(s.(lastKnownLat := l.latitude, lastKnownLng := l.longitude, lastKnownAddress := None),
              now, within, resource)
  }

  /**
   * `onStartCommand` for an intent with `action`. Without an action the
   * service starts location updates, or stops itself when the fine-location
   * permission is missing.
   */
  function Commanded(s: Service, action: Option<string>, permissionGranted: bool, now: int): (Service, StartMode) {
    if action == Some(ACTION_STOP) then
      (StoppedSelf(s.(mgr := Triggered(s.mgr))), NotSticky)
    else if action == Some(ACTION_SAFE) then
      (s.(mgr := MarkedSafe(s.mgr, s.lastKnownLat, s.lastKnownLng, s.lastKnownAddress, now)), NotSticky)
    else if !permissionGranted then
      (s.(selfStopped := true), Sticky)
    else
      (s.(callbackRegistered := true), Sticky)
  }

  // ---------------------------------------------------------------------
  // One step at a time

  lemma CreatedEffect(mgr: Manager, now: int, lat: real, lng: real, address: Option<string>)
    ensures var s := Created(mgr, now, lat, lng, address);
      s.checkInIndex == 0 && s.nextCheckInAt == now + 5 * 60 * 1000 && s.serviceStartTime == now
      && s.mgr == mgr && !s.callbackRegistered
  {
  }

  /**
   * Arrival wins: the session ends, the service stops, and nothing is
   * scheduled on that tick. `stopTracking`, called right after
   * `onHomeReached`, clears the welcome message again.
   */
  lemma ArrivalFirst(s: Service, now: int, within: Geofence, resource: Option<string>)
    requires AtHome(s, within)
    ensures var r := Checked(s, now, within, resource);
      && r.mgr == Stopped(Arrived(s.mgr, resource))
      && r.mgr.homeReachedEvents == s.mgr.homeReachedEvents + 1
      && r.mgr.overlayEvents == s.mgr.overlayEvents
      && r.checkInIndex == s.checkInIndex && r.nextCheckInAt == s.nextCheckInAt
      && r.selfStopped && !r.callbackRegistered && !r.mgr.isTracking
      && r.mgr.welcomeHomeMessage == None
  {
  }

  /** With a zero home coordinate arrival never fires. */
  lemma NoHomeNoArrival(s: Service, now: int, within: Geofence, resource: Option<string>)
    requires HomeLat(s.mgr.prefs) == 0.0 || HomeLng(s.mgr.prefs) == 0.0
    ensures Checked(s, now, within, resource).mgr.homeReachedEvents == s.mgr.homeReachedEvents
    ensures !Checked(s, now, within, resource).selfStopped || s.selfStopped
  {
  }

  /** A due tick arms the next check-in: index + 1, deadline in two minutes, next one in five. */
  lemma DueTick(s: Service, now: int, within: Geofence, resource: Option<string>)
    requires !AtHome(s, within) && now >= s.nextCheckInAt
    ensures var r := Checked(s, now, within, resource);
      && r.checkInIndex == s.checkInIndex + 1
      && r.nextCheckInAt == now + CHECK_IN_INTERVAL_MS
      && NextCheckInTime(r.mgr.prefs) == r.nextCheckInAt
      && r.mgr.overlayEvents == s.mgr.overlayEvents
           + [CheckInOverlayEvent(s.checkInIndex + 1, now + CHECK_IN_TIMEOUT_MS,
                                  s.lastKnownLat, s.lastKnownLng, s.lastKnownAddress)]
      && !r.mgr.responded && r.mgr.currentCheckInIndex == r.checkInIndex
      && History(r.mgr.prefs) == History(s.mgr.prefs)
      && CheckInCount(r.mgr.prefs) == CheckInCount(s.mgr.prefs)
  {
  }

  lemma EarlyTick(s: Service, now: int, within: Geofence, resource: Option<string>)
    requires !AtHome(s, within) && now < s.nextCheckInAt
    ensures Checked(s, now, within, resource) == s
  {
  }

  /** Every fix overwrites the last known location and forgets the address before the check. */
  lemma LocatedRecordsFix(s: Service, l: Location, now: int, within: Geofence, resource: Option<string>)
    ensures var r := Located(s, Some(l), now, within, resource);
      r.lastKnownLat == l.latitude && r.lastKnownLng == l.longitude && r.lastKnownAddress == None
  {
  }

  /** The notification's STOP escalates once, then ends the session and the service. */
  lemma StopAction(s: Service, permissionGranted: bool, now: int)
    ensures var (r, mode) := Commanded(s, Some(ACTION_STOP), permissionGranted, now);
      && mode == NotSticky
      && r.mgr.alertsSent == s.mgr.alertsSent + 1
      && r.mgr.callsPlaced == s.mgr.callsPlaced + [EMERGENCY_NUMBER]
      && !r.mgr.isTracking && !IsTrackingActive(r.mgr.prefs)
      && r.selfStopped && !r.callbackRegistered
  {
  }

  /** The notification's SAFE only forwards to the controller and keeps the session running. */
  lemma SafeAction(s: Service, permissionGranted: bool, now: int)
    ensures var (r, mode) := Commanded(s, Some(ACTION_SAFE), permissionGranted, now);
      && mode == NotSticky
      && r.mgr == MarkedSafe(s.mgr, s.lastKnownLat, s.lastKnownLng, s.lastKnownAddress, now)
      && r.mgr.isTracking == s.mgr.isTracking && r.mgr.alertsSent == s.mgr.alertsSent
      && r.selfStopped == s.selfStopped && r.callbackRegistered == s.callbackRegistered
  {
  }

  // ---------------------------------------------------------------------
  // Sequences of location results

  datatype Tick = Tick(loc: Option<Location>, now: int, resource: Option<string>)

  function RunTicks(s: Service, ts: seq<Tick>, within: Geofence): Service
    decreases |ts|
  {
    if ts == [] then s else RunTicks(Located(s, ts[0].loc, ts[0].now, within, ts[0].resource), ts[1..], within)
  }

  /**
   * Check-ins armed after state with index `index` and due time `due`: they
   * are numbered `index + 1`, `index + 2`, …, the first deadline is at least
   * two minutes after `due`, and consecutive deadlines are at least five
   * minutes apart.
   */
  predicate Paced(es: seq<CheckInOverlayEvent>, index: int, due: int) {
    && (forall k :: 0 <= k < |es| ==> es[k].index == index + k + 1)
    && (es != [] ==> es[0].timeoutAt >= due + CHECK_IN_TIMEOUT_MS)
    && (forall k :: 0 <= k < |es| - 1 ==> es[k + 1].timeoutAt >= es[k].timeoutAt + CHECK_IN_INTERVAL_MS)
  }

  lemma PacedCons(e: CheckInOverlayEvent, es: seq<CheckInOverlayEvent>, index: int, due: int, now: int)
    requires e.index == index + 1 && e.timeoutAt == now + CHECK_IN_TIMEOUT_MS && now >= due
    requires Paced(es, index + 1, now + CHECK_IN_INTERVAL_MS)
    ensures Paced([e] + es, index, due)
  {
    var all := [e] + es;
    forall k | 0 <= k < |all| ensures all[k].index == index + k + 1 {
      if k > 0 { assert all[k] == es[k - 1]; }
    }
    forall k | 0 <= k < |all| - 1 ensures all[k + 1].timeoutAt >= all[k].timeoutAt + CHECK_IN_INTERVAL_MS {
      if k > 0 { assert all[k] == es[k - 1] && all[k + 1] == es[k]; }
    }
  }

  /** One location result arms at most one check-in, and only by appending it. */
  lemma LocatedOne(s: Service, t: Tick, within: Geofence)
    ensures var r := Located(s, t.loc, t.now, within, t.resource);
      && (r.checkInIndex == s.checkInIndex ==> r.mgr.overlayEvents == s.mgr.overlayEvents && r.nextCheckInAt == s.nextCheckInAt)
      && (r.checkInIndex != s.checkInIndex ==>
            && r.checkInIndex == s.checkInIndex + 1
            && r.nextCheckInAt == t.now + CHECK_IN_INTERVAL_MS && t.now >= s.nextCheckInAt
            && r.mgr.overlayEvents == s.mgr.overlayEvents
                 + [CheckInOverlayEvent(r.checkInIndex, t.now + CHECK_IN_TIMEOUT_MS,
                                        r.lastKnownLat, r.lastKnownLng, r.lastKnownAddress)])
  {
  }

  /**
   * Over any run of location results, whatever the clock readings, the
   * check-ins armed are numbered consecutively from the current index and
   * their deadlines are at least five minutes apart; the index never goes down.
   */
  lemma {:induction false} TicksPaced(s: Service, ts: seq<Tick>, within: Geofence)
    ensures var r := RunTicks(s, ts, within);
      && r.checkInIndex >= s.checkInIndex
      && |r.mgr.overlayEvents| == |s.mgr.overlayEvents| + (r.checkInIndex - s.checkInIndex)
      && r.mgr.overlayEvents[..|s.mgr.overlayEvents|] == s.mgr.overlayEvents
      && Paced(r.mgr.overlayEvents[|s.mgr.overlayEvents|..], s.checkInIndex, s.nextCheckInAt)
    decreases |ts|
  {
    var n := |s.mgr.overlayEvents|;
    if ts == [] {
      assert s.mgr.overlayEvents[n..] == [];
    } else {
      var t := ts[0];
      var s1 := Located(s, t.loc, t.now, within, t.resource);
      var r := RunTicks(s1, ts[1..], within);
      assert r == RunTicks(s, ts, within);
      LocatedOne(s, t, within);
      TicksPaced(s1, ts[1..], within);
      var n1 := |s1.mgr.overlayEvents|;
      assert r.mgr.overlayEvents[..n1] == s1.mgr.overlayEvents;
      if s1.checkInIndex == s.checkInIndex {
        assert n1 == n;
      } else {
        var e := s1.mgr.overlayEvents[n];
        assert n1 == n + 1;
        assert r.mgr.overlayEvents[..n] == s.mgr.overlayEvents by {
          assert r.mgr.overlayEvents[..n] == r.mgr.overlayEvents[..n1][..n];
        }
        assert r.mgr.overlayEvents[n..] == [e] + r.mgr.overlayEvents[n1..] by {
          assert r.mgr.overlayEvents[n] == r.mgr.overlayEvents[..n1][n] == e;
        }
        PacedCons(e, r.mgr.overlayEvents[n1..], s.checkInIndex, s.nextCheckInAt, t.now);
      }
    }
  }

  // ---------------------------------------------------------------------
  // The service object

  class TrackMeService {
    const manager: TrackMeServiceManager
    var serviceStartTime: int
    var nextCheckInAt: int
    var checkInIndex: int
    var lastKnownLat: real
    var lastKnownLng: real
    var lastKnownAddress: Option<string>
    var callbackRegistered: bool
    var selfStopped: bool

    function Abs(): Service
      reads this, manager, manager.prefs
    {
      Service(manager.Abs(), serviceStartTime, nextCheckInAt, checkInIndex,
              lastKnownLat, lastKnownLng, lastKnownAddress, callbackRegistered, selfStopped)
    }

    /** `onCreate()` */
    constructor (mgr: TrackMeServiceManager, now: int, lat: real, lng: real, address: Option<string>)
      ensures manager == mgr && Abs() == Created(mgr.Abs(), now, lat, lng, address)
    {
      manager := mgr;
      serviceStartTime := now;
      nextCheckInAt := now + CHECK_IN_INTERVAL_MS;
      checkInIndex := 0;
      lastKnownLat, lastKnownLng, lastKnownAddress := lat, lng, address;
      callbackRegistered := false;
      selfStopped := false;
    }

    method OnStartCommand(action: Option<string>, permissionGranted: bool, now: int) returns (mode: StartMode)
      modifies this, manager, manager.prefs
      ensures (Abs(), mode) == Commanded(old(Abs()), action, permissionGranted, now)
    {
      if action == Some(ACTION_STOP) {
        manager.TriggerEmergency();
        StopTrackingAndStopSelf();
        return NotSticky;
      }
      if action == Some(ACTION_SAFE) {
        manager.MarkSafeFromNotification(lastKnownLat, lastKnownLng, lastKnownAddress, now);
        return NotSticky;
      }
      // startLocationUpdates()
      if !permissionGranted {
        selfStopped := true;
      } else {
        callbackRegistered := true;
      }
      return Sticky;
    }

    method OnLocationResult(loc: Option<Location>, now: int, within: Geofence, resource: Option<string>)
      modifies this, manager, manager.prefs
      ensures Abs() == Located(old(Abs()), loc, now, within, resource)
    {
      if loc.None? {
        return;
      }
      lastKnownLat := loc.value.latitude;
      lastKnownLng := loc.value.longitude;
      lastKnownAddress := None;
      CheckHomeAndCheckIn(now, within, resource);
    }

    method CheckHomeAndCheckIn(now: int, within: Geofence, resource: Option<string>)
      modifies this, manager, manager.prefs
      ensures Abs() == Checked(old(Abs()), now, within, resource)
    {
      var homeLat := HomeLat(manager.prefs.store);
      var homeLng := HomeLng(manager.prefs.store);
      if homeLat != 0.0 && homeLng != 0.0 && within(lastKnownLat, lastKnownLng, homeLat, homeLng) {
        manager.OnHomeReached(resource);
        StopTrackingAndStopSelf();
        return;
      }
      if now >= nextCheckInAt {
        checkInIndex := checkInIndex + 1;
        nextCheckInAt := now + CHECK_IN_INTERVAL_MS;
        var timeoutAt := now + CHECK_IN_TIMEOUT_MS;
        manager.ScheduleCheckIn(checkInIndex, timeoutAt, lastKnownLat, lastKnownLng, lastKnownAddress);
        manager.prefs.SetNextCheckInTime(nextCheckInAt);
      }
    }

    method StopTrackingAndStopSelf()
      modifies this, manager, manager.prefs
      ensures Abs() == StoppedSelf(old(Abs()))
    {
      callbackRegistered := false;
      manager.StopTracking();
      selfStopped := true;
    }
  }
}
