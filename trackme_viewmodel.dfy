/**
 * The Track Me Home view model (`TrackMeViewModel`): it mirrors the
 * controller's tracking flag and count, raises `showWelcomeHome` and
 * `emergencyActive` on the controller's signals, shows each overlay event,
 * and arms a two-minute timeout per event that answers TIMEOUT only if that
 * same event is still on screen.
 *
 * The coroutine that waits out the two minutes is the `timeoutJob` field:
 * the event it waits for, or None once cancelled or finished. The end of
 * delay (`delay(120000)`) is an explicit step, `TimeoutElapsed`, so the
 * length of the delay does not appear in the model.
 */
module CheckInViewModel {
  import opened Common
  import opened Records
  import opened TrackMePrefs
  import opened SessionManager

  datatype ViewModel = ViewModel(
    mgr: Manager,
    isTracking: bool,
    checkInCount: int,
    overlay: Option<CheckInOverlayEvent>,
    timeoutJob: Option<CheckInOverlayEvent>,
    emergencyActive: bool,
    showWelcomeHome: bool)

  // ---------------------------------------------------------------------
  // The operations

  /**
   * The view model after the controller moved from `v.mgr` to `m`: the
   * state flows are copied and a new `homeReached` / `emergencyTriggered`
   * signal raises its flag.
   */
  function Mirrored(v: ViewModel, m: Manager): ViewModel {
    v.(mgr := m,
       isTracking := m.isTracking,
       checkInCount := m.checkInCount,
       showWelcomeHome := v.showWelcomeHome || m.homeReachedEvents != v.mgr.homeReachedEvents,
       emergencyActive := v.emergencyActive || m.emergencyEvents != v.mgr.emergencyEvents)
  }

  /** `init`: the flags start false and zero, then the state-flow collectors copy the controller's values. */
  function InitialVm(m: Manager): ViewModel {
    Mirrored(ViewModel(m, false, 0, None, None, false, false), m)
  }

  /** `startTracking()` */
  function StartedVm(v: ViewModel, now: int): ViewModel {
    Mirrored(v, Started(v.mgr, now))
  }

  /** `stopTracking()` */
  function StoppedVm(v: ViewModel): ViewModel {
    Mirrored(v, Stopped(v.mgr))
  }

  /** The overlay collector receives event `e`: it is shown and a fresh timeout replaces the old one. */
  function Shown(v: ViewModel, e: CheckInOverlayEvent): ViewModel {
    v.(overlay := Some(e), timeoutJob := Some(e))
  }

  /** `onCheckInResponse(response, lat, lng, address)` at time `now`. */
  function Answered(v: ViewModel, response: CheckInResponse, lat: real, lng: real,
                    address: Option<string>, now: int): ViewModel {
    Mirrored(v.(timeoutJob := None, overlay := None), Responded(v.mgr, response, lat, lng, address, now))
  }

  /** The pending timeout job's two minutes are over, at time `now`. */
  function TimeoutElapsed(v: ViewModel, now: int): ViewModel {
    match v.timeoutJob
    case None => v
    case Some(e) =>
      if v.overlay == Some(e) then Answered(v, Timeout, e.lat, e.lng, e.address, now)
      else v.(timeoutJob := None)
  }

  /** `dismissWelcomeHome()` */
  function Dismissed(v: ViewModel): ViewModel {
    v.(showWelcomeHome := false)
  }

  /** `getEmergencyContactCount()` */
  function EmergencyContactCount(v: ViewModel): (n: int)
    ensures n == 0
  {
    0
  }

  // ---------------------------------------------------------------------
  // Properties

  /** A new event replaces the overlay and the pending timeout, whatever was there before. */
  lemma ShownReplaces(v: ViewModel, e: CheckInOverlayEvent)
    ensures Shown(v, e).overlay == Some(e) && Shown(v, e).timeoutJob == Some(e)
    ensures Shown(v, e).mgr == v.mgr
  {
  }

  /** The timeout answers TIMEOUT, with the event's location, exactly when its event is still showing. */
  lemma TimeoutOnlyWhenShowing(v: ViewModel, e: CheckInOverlayEvent, now: int)
    requires v.timeoutJob == Some(e)
    ensures v.overlay == Some(e) ==>
      TimeoutElapsed(v, now).mgr == Responded(v.mgr, Timeout, e.lat, e.lng, e.address, now)
    ensures v.overlay != Some(e) ==> TimeoutElapsed(v, now).mgr == v.mgr
    ensures TimeoutElapsed(v, now).timeoutJob == None
  {
  }

  /** A response cancels the timeout, hides the overlay and forwards to the controller once. */
  lemma AnsweredForwards(v: ViewModel, response: CheckInResponse, lat: real, lng: real,
                         address: Option<string>, now: int)
    ensures var a := Answered(v, response, lat, lng, address, now);
      && a.overlay == None && a.timeoutJob == None
      && a.mgr == Responded(v.mgr, response, lat, lng, address, now)
  {
  }

  /** After the user answers, the timeout of the event that was showing does nothing. */
  lemma AnswerThenTimeout(v: ViewModel, response: CheckInResponse, lat: real, lng: real,
                          address: Option<string>, now: int, later: int)
    ensures var a := Answered(v, response, lat, lng, address, now);
      TimeoutElapsed(a, later) == a
  {
  }

  /** Of two events shown in a row, only the second can time out, and with its own location. */
  lemma OnlyLatestTimesOut(v: ViewModel, e1: CheckInOverlayEvent, e2: CheckInOverlayEvent, now: int)
    ensures TimeoutElapsed(Shown(Shown(v, e1), e2), now).mgr
      == Responded(v.mgr, Timeout, e2.lat, e2.lng, e2.address, now)
    ensures TimeoutElapsed(TimeoutElapsed(Shown(Shown(v, e1), e2), now), now)
      == TimeoutElapsed(Shown(Shown(v, e1), e2), now)
  {
  }

  /** An answered NO (or a timeout) that the controller accepts raises `emergencyActive`. */
  lemma EscalationRaisesFlag(v: ViewModel, response: CheckInResponse, lat: real, lng: real,
                             address: Option<string>, now: int)
    requires !v.mgr.responded && response != Yes
    ensures Answered(v, response, lat, lng, address, now).emergencyActive
  {
    RespondedAccepted(v.mgr, response, lat, lng, address, now);
  }

  lemma DismissedEffect(v: ViewModel)
    ensures !Dismissed(v).showWelcomeHome
    ensures Dismissed(v).(showWelcomeHome := v.showWelcomeHome) == v
  {
  }

  // ---------------------------------------------------------------------
  // Sequences of calls

  datatype VmCall =
    | StartTracking(now: int)
    | StopTracking
    | Show(event: CheckInOverlayEvent)
    | Elapse(now: int)
    | Answer(response: CheckInResponse, lat: real, lng: real, address: Option<string>, now: int)
    | DismissWelcomeHome
      /** The controller changed through another caller (the service). */
    | External(next: Manager)

  function ApplyVm(v: ViewModel, c: VmCall): ViewModel {
    match c
    case StartTracking(now) => StartedVm(v, now)
    case StopTracking => StoppedVm(v)
    case Show(e) => Shown(v, e)
    case Elapse(now) => TimeoutElapsed(v, now)
    case Answer(r, lat, lng, a, now) => Answered(v, r, lat, lng, a, now)
    case DismissWelcomeHome => Dismissed(v)
    case External(m) => Mirrored(v, m)
  }

  function RunVm(v: ViewModel, cs: seq<VmCall>): ViewModel
    decreases |cs|
  {
    if cs == [] then v else RunVm(ApplyVm(v, cs[0]), cs[1..])
  }

  /** The view model shows the controller's tracking flag and count. */
  predicate Mirrors(v: ViewModel) {
    v.isTracking == v.mgr.isTracking && v.checkInCount == v.mgr.checkInCount
  }

  /** The timeout job, when pending, waits for the event on screen. */
  predicate JobMatchesOverlay(v: ViewModel) {
    v.timeoutJob.Some? ==> v.overlay == v.timeoutJob
  }

  /** Both hold from `init` on, whatever the calls. */
  lemma {:induction false} MirrorsKept(v: ViewModel, cs: seq<VmCall>)
    requires Mirrors(v) && JobMatchesOverlay(v)
    ensures Mirrors(RunVm(v, cs)) && JobMatchesOverlay(RunVm(v, cs))
    decreases |cs|
  {
    if cs != [] {
      var v1 := ApplyVm(v, cs[0]);
      assert Mirrors(v1) && JobMatchesOverlay(v1);
      MirrorsKept(v1, cs[1..]);
    }
  }

  lemma InitialMirrors(m: Manager)
    ensures Mirrors(InitialVm(m)) && JobMatchesOverlay(InitialVm(m))
    ensures InitialVm(m).overlay == None && !InitialVm(m).emergencyActive && !InitialVm(m).showWelcomeHome
  {
  }

  // ---------------------------------------------------------------------
  // The view-model object

  class TrackMeViewModel {
    const manager: TrackMeServiceManager
    var isTracking: bool
    var checkInCount: int
    var showCheckInOverlay: Option<CheckInOverlayEvent>
    var checkInTimeoutJob: Option<CheckInOverlayEvent>
    var emergencyActive: bool
    var showWelcomeHome: bool

    function Abs(): ViewModel
      reads this, manager, manager.prefs
    {
      ViewModel(manager.Abs(), isTracking, checkInCount, showCheckInOverlay, checkInTimeoutJob,
                emergencyActive, showWelcomeHome)
    }

    constructor (m: TrackMeServiceManager)
      ensures manager == m && Abs() == InitialVm(m.Abs())
    {
      manager := m;
      isTracking := m.isTracking;
      checkInCount := m.checkInCount;
      showCheckInOverlay := None;
      checkInTimeoutJob := None;
      emergencyActive := false;
      showWelcomeHome := false;
    }

    /** The collectors run after the controller moved on from signal counts `homeBefore` and `emergencyBefore`. */
    method Collect(homeBefore: nat, emergencyBefore: nat)
      modifies this
      ensures isTracking == manager.isTracking && checkInCount == manager.checkInCount
      ensures showWelcomeHome == (old(showWelcomeHome) || manager.homeReachedEvents != homeBefore)
      ensures emergencyActive == (old(emergencyActive) || manager.emergencyEvents != emergencyBefore)
      ensures showCheckInOverlay == old(showCheckInOverlay) && checkInTimeoutJob == old(checkInTimeoutJob)
    {
      isTracking := manager.isTracking;
      checkInCount := manager.checkInCount;
      if manager.homeReachedEvents != homeBefore {
        showWelcomeHome := true;
      }
      if manager.emergencyEvents != emergencyBefore {
        emergencyActive := true;
      }
    }

    method StartTracking(now: int)
      modifies this, manager, manager.prefs
      ensures Abs() == StartedVm(old(Abs()), now)
    {
      var home, emergency := manager.homeReachedEvents, manager.emergencyEvents;
      manager.StartTracking(now);
      Collect(home, emergency);
    }

    method StopTracking()
      modifies this, manager, manager.prefs
      ensures Abs() == StoppedVm(old(Abs()))
    {
      var home, emergency := manager.homeReachedEvents, manager.emergencyEvents;
      manager.StopTracking();
      Collect(home, emergency);
    }

    /** The `showCheckInOverlay` collector. */
    method OnOverlayEvent(e: CheckInOverlayEvent)
      modifies this
      ensures Abs() == Shown(old(Abs()), e)
    {
      showCheckInOverlay := Some(e);
      checkInTimeoutJob := Some(e);
    }

    /** The end of the pending timeout job's delay. */
    method OnTimeoutElapsed(now: int)
      modifies this, manager, manager.prefs
      ensures Abs() == TimeoutElapsed(old(Abs()), now)
    {
      if checkInTimeoutJob.None? {
        return;
      }
      var e := checkInTimeoutJob.value;
      if showCheckInOverlay == Some(e) {
        OnCheckInResponse(Timeout, e.lat, e.lng, e.address, now);
      } else {
        checkInTimeoutJob := None;
      }
    }

    method OnCheckInResponse(response: CheckInResponse, lat: real, lng: real, address: Option<string>, now: int)
      modifies this, manager, manager.prefs
      ensures Abs() == Answered(old(Abs()), response, lat, lng, address, now)
    {
      checkInTimeoutJob := None;
      showCheckInOverlay := None;
      var home, emergency := manager.homeReachedEvents, manager.emergencyEvents;
      manager.OnCheckInResponse(response, lat, lng, address, now);
      Collect(home, emergency);
    }

    method DismissWelcomeHome()
      modifies this
      ensures Abs() == Dismissed(old(Abs()))
    {
      showWelcomeHome := false;
    }

    method GetCheckInHistory() returns (h: seq<CheckIn>)
      ensures h == History(manager.prefs.store)
      ensures NoEmptyAddress(h)
    {
      h := manager.prefs.GetCheckInHistory();
    }
  }
}
