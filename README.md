# HelpNow core, modelled in Dafny

HelpNow is an Android personal-safety app. This project models its core and
proves properties of the model:

- **Track Me Home.** The walk-home session has four parts:
  - a controller (`TrackMeServiceManager`) that starts and stops sessions,
    publishes check-in prompts and records responses;
  - a foreground location service (`TrackMeService`) that detects arrival
    home and arms a check-in every five minutes;
  - the session's preferences file (`TrackMePreferences`), which keeps the
    session keys and a capped JSON history of check-ins;
  - the view model (`TrackMeViewModel`), which mirrors the controller and
    answers TIMEOUT when a prompt is left unanswered for two minutes.
- **Voice Guard.** The speech-recognition service
  (`VoiceListenerService`) launches the SOS screen when the user's danger
  phrase is recognised. The silence detector (`AudioBufferManager`) fires
  after a long enough stretch of silent audio buffers.
- **Onboarding.** The emergency contacts screen, the user profile screen
  and their input validation (`ValidationUtils`).
- **App preferences.** The app-wide preferences file
  (`SharedPreferencesManager`).

## How it is modelled

Each source component lives in a module of its own:

| component | module | file |
|---|---|---|
| Track Me controller | `SessionManager` | `trackme_manager.dfy` |
| location service | `LocationService` | `trackme_service.dfy` |
| session preferences | `TrackMePrefs` | `trackme_preferences.dfy` |
| view model | `CheckInViewModel` | `trackme_viewmodel.dfy` |
| app preferences | `AppPrefs` | `shared_prefs.dfy` |
| voice service | `VoiceGuard` | `voice_listener.dfy` |
| silence detector | `SilenceDetector` | `audio_buffer.dfy` |
| contacts screen | `ContactsForm` | `emergency_contacts.dfy` |
| profile screen | `ProfileForm` | `user_profile.dfy` |
| validation | `Validation` | `validation.dfy` |

Three shared modules support them:

- `Common`: Option and character and string helpers.
- `Records`: the check-in record and the contact and user records.
- `KeyValue`: a SharedPreferences file as a typed map, with
  default-returning getters.

Every stateful component appears twice:

1. A **datatype with pure step functions**, one per source operation (for
   example `SessionManager.Responded`). The properties are proved about
   these functions, as lemmas over single calls and over whole call
   sequences.
2. A **class** with the source's fields. Each of its methods updates the
   fields as the source does and ensures that the new abstract state equals
   the step function applied to the old one
   (`ensures Abs() == Responded(old(Abs()), …)`).

Inputs from the outside world are parameters:

- the wall clock (`now`) and today's date string (`today`);
- the geofence test (`within`);
- permission checks;
- string resources (`Option<string>`, None where they cannot be read);
- the voiceprint matcher's score (`scoreOf`, None where it throws);
- the calendar check of a date (`parses`).

## Model

| member | source | states |
|---|---|---|
| Records.ResponseValueOf | app/src/main/java/com/helpnow/app/data/CheckIn.kt:6-10 | `valueOf` gives back a response only for its exact name; it fails (None) for any other string |
| Records.ValueOfName | app/src/main/java/com/helpnow/app/data/CheckIn.kt:6-10 | `valueOf(r.name) == r` for every response |
| Validation.ValidatePhone | app/src/main/java/com/helpnow/utils/ValidationUtils.kt:7-9 | accepted iff exactly ten characters, all ASCII digits |
| Validation.ValidateName | app/src/main/java/com/helpnow/utils/ValidationUtils.kt:11-14 | accepted iff at least three characters, each a letter or a space |
| Validation.ValidateAddress | app/src/main/java/com/helpnow/utils/ValidationUtils.kt:27-29 | accepted iff at least five characters |
| Validation.ValidateOTP | app/src/main/java/com/helpnow/utils/ValidationUtils.kt:31-35 | an accepted code has four characters |
| Validation.OTPIsMembership | app/src/main/java/com/helpnow/utils/ValidationUtils.kt:31-35 | the length and digit tests are implied: a code is accepted iff it is one of the listed codes |
| Validation.PatternIsShape | app/src/main/java/com/helpnow/utils/ValidationUtils.kt:21 | the `\d{2}-\d{2}-\d{4}` match is exactly the position-by-position `dd-dd-dddd` shape |
| Validation.ValidateDateOfBirth | app/src/main/java/com/helpnow/utils/ValidationUtils.kt:16-24 | accepted only if the calendar parse succeeds and the text has the `dd-dd-dddd` shape; a parse failure rejects |
| TrackMePrefs.EncodeAll | app/src/main/java/com/helpnow/trackme/TrackMePreferences.kt:48-58 | one JSON object per check-in, in list order |
| TrackMePrefs.ToJson | app/src/main/java/com/helpnow/trackme/TrackMePreferences.kt:48-58 | the `forEach` loop builds exactly `EncodeAll(list)` |
| TrackMePrefs.DecodeAddress | app/src/main/java/com/helpnow/trackme/TrackMePreferences.kt:73 | the stored address reads back as null iff it is `""`, otherwise as itself |
| TrackMePrefs.AddedToHistory | app/src/main/java/com/helpnow/trackme/TrackMePreferences.kt:45-47 | the new record is first; the old list follows, without its last entry when it already held ten |
| TrackMePrefs.Normalized | app/src/main/java/com/helpnow/trackme/TrackMePreferences.kt:55-73 | a record read back differs from the written one only in its address: `""` becomes null |
| TrackMePrefs.NormalizedAll | app/src/main/java/com/helpnow/trackme/TrackMePreferences.kt:62-79 | each record of a list normalised, same length and order |
| TrackMePrefs.DecodeEncodeAll | app/src/main/java/com/helpnow/trackme/TrackMePreferences.kt:45-79 | writing a list and reading it back gives the list with empty addresses collapsed to null |
| TrackMePrefs.NormalizedNoEmpty | app/src/main/java/com/helpnow/trackme/TrackMePreferences.kt:55-73 | the round trip is exact on lists without empty addresses |
| TrackMePrefs.DecodedNoEmpty | app/src/main/java/com/helpnow/trackme/TrackMePreferences.kt:66-75 | nothing read back carries the empty address |
| TrackMePrefs.HistoryNoEmpty | app/src/main/java/com/helpnow/trackme/TrackMePreferences.kt:62-79 | the history never contains an empty address |
| TrackMePrefs.WithCheckInHistory | app/src/main/java/com/helpnow/trackme/TrackMePreferences.kt:45-60 | after `addCheckIn(c)` the history is the capped list with `c`, normalised, in front |
| TrackMePrefs.AddCheckInLength | app/src/main/java/com/helpnow/trackme/TrackMePreferences.kt:45-47 | within the cap, one add grows the history by one, up to at most ten |
| TrackMePrefs.WithCheckInKeepsSession | app/src/main/java/com/helpnow/trackme/TrackMePreferences.kt:59 | writing the history changes no session key and no home coordinate |
| TrackMePrefs.ResetEffect | app/src/main/java/com/helpnow/trackme/TrackMePreferences.kt:81-87 | the reset clears the active flag, the start time and the count, and keeps home and history |
| TrackMePrefs.SettersRoundTrip | app/src/main/java/com/helpnow/trackme/TrackMePreferences.kt:25-35 | each setter reads back through its getter; an empty file reads false, 0, 0 |
| TrackMePrefs.CorruptHistoryIsEmpty | app/src/main/java/com/helpnow/trackme/TrackMePreferences.kt:62-79 | a missing key, a non-array value or an unreadable array reads as the empty history |
| TrackMePrefs.BadRecordEmptiesAll | app/src/main/java/com/helpnow/trackme/TrackMePreferences.kt:66-78 | one object with an unknown response name makes the whole array unreadable |
| TrackMePrefs.Reversed | app/src/main/java/com/helpnow/trackme/TrackMePreferences.kt:46 | the same elements in the opposite order (the newest-first order of the history) |
| TrackMePrefs.Newest | app/src/main/java/com/helpnow/trackme/TrackMePreferences.kt:18 | at most ten entries |
| TrackMePrefs.NewestConcat | app/src/main/java/com/helpnow/trackme/TrackMePreferences.kt:46-47 | capping before prepending changes nothing: `Newest(x + Newest(y)) == Newest(x + y)` |
| TrackMePrefs.AddedIsNewest | app/src/main/java/com/helpnow/trackme/TrackMePreferences.kt:46-47 | within the cap, prepend-then-drop-last is "the ten newest of `[c] + h`" |
| TrackMePrefs.AddAllFolded | app/src/main/java/com/helpnow/trackme/TrackMePreferences.kt:45-79 | adding several check-ins through the store is the fold of `AddedToHistory` over them |
| TrackMePrefs.NormalizedReversedCons | app/src/main/java/com/helpnow/trackme/TrackMePreferences.kt:46 | normalising commutes with the newest-first reordering |
| TrackMePrefs.FoldedIsNewest | app/src/main/java/com/helpnow/trackme/TrackMePreferences.kt:45-60 | any number of adds from a history within the cap keeps the ten newest records, newest first |
| TrackMePrefs.FifteenKeepsTen | app/src/main/java/com/helpnow/trackme/TrackMePreferences.kt:45-60 | fifteen adds into an empty file leave the last ten, newest first |
| TrackMePrefs.TrackMePreferences.constructor | app/src/main/java/com/helpnow/trackme/TrackMePreferences.kt:20-23 | the object views the given file |
| TrackMePrefs.TrackMePreferences.GetCheckInHistory | app/src/main/java/com/helpnow/trackme/TrackMePreferences.kt:62-79 | the history read back never carries an empty address |
| TrackMePrefs.TrackMePreferences.SetTrackingActive | app/src/main/java/com/helpnow/trackme/TrackMePreferences.kt:25-27 | writes the active flag only |
| TrackMePrefs.TrackMePreferences.SetTrackingStartTime | app/src/main/java/com/helpnow/trackme/TrackMePreferences.kt:29-31 | writes the start time only |
| TrackMePrefs.TrackMePreferences.SetCheckInCount | app/src/main/java/com/helpnow/trackme/TrackMePreferences.kt:33-35 | writes the count only |
| TrackMePrefs.TrackMePreferences.SetHomeLat | app/src/main/java/com/helpnow/trackme/TrackMePreferences.kt:37-39 | writes the home latitude only |
| TrackMePrefs.TrackMePreferences.SetHomeLng | app/src/main/java/com/helpnow/trackme/TrackMePreferences.kt:41-43 | writes the home longitude only |
| TrackMePrefs.TrackMePreferences.SetNextCheckInTime | app/src/main/java/com/helpnow/app/services/TrackMeService.kt:149 | writes the next check-in time only |
| TrackMePrefs.TrackMePreferences.ResetTrackingState | app/src/main/java/com/helpnow/trackme/TrackMePreferences.kt:81-87 | the file after the reset edit |
| TrackMePrefs.TrackMePreferences.AddCheckIn | app/src/main/java/com/helpnow/trackme/TrackMePreferences.kt:45-60 | the history becomes the capped list with the new record, normalised, in front |
| SessionManager.StartedEffect | app/src/main/java/com/helpnow/trackme/TrackMeServiceManager.kt:69-85 | while tracking, start does nothing; otherwise it sets the flag, zeroes the count, stamps the start time, and keeps the history and the response flag |
| SessionManager.StoppedEffect | app/src/main/java/com/helpnow/trackme/TrackMeServiceManager.kt:87-96 | stop resets the session keys, clears the flag and the welcome message, and keeps the history, the published count and the response flag |
| SessionManager.ArrivedEffect | app/src/main/java/com/helpnow/trackme/TrackMeServiceManager.kt:98-106 | arrival ends tracking, sets a welcome message (the fallback text when the resource is unreadable) and signals `homeReached` once |
| SessionManager.ScheduledEffect | app/src/main/java/com/helpnow/trackme/TrackMeServiceManager.kt:108-114 | scheduling records the index, clears the response flag and appends exactly one overlay event |
| SessionManager.RespondedLate | app/src/main/java/com/helpnow/trackme/TrackMeServiceManager.kt:117 | after the flag is set, a response changes nothing |
| SessionManager.RespondedAccepted | app/src/main/java/com/helpnow/trackme/TrackMeServiceManager.kt:116-134 | an accepted response sets the flag, records one check-in, adds one to the persisted count and publishes it; it escalates once exactly for NO and TIMEOUT |
| SessionManager.MarkedSafeIsYes | app/src/main/java/com/helpnow/trackme/TrackMeServiceManager.kt:144-150 | the notification's SAFE is a YES response and never alerts |
| SessionManager.TriggeredTwice | app/src/main/java/com/helpnow/trackme/TrackMeServiceManager.kt:136-142 | `triggerEmergency` has no guard: two calls send two alerts and place two calls |
| SessionManager.ResponseBeforeAnySchedule | app/src/main/java/com/helpnow/trackme/TrackMeServiceManager.kt:116-134 | the flag starts false, so a response is recorded before any check-in was scheduled |
| SessionManager.FlagStaysSet | app/src/main/java/com/helpnow/trackme/TrackMeServiceManager.kt:69-150 | only `scheduleCheckIn` clears the flag: no call sequence without it lets a response through |
| SessionManager.AtMostOneResponse | app/src/main/java/com/helpnow/trackme/TrackMeServiceManager.kt:117 | between two `scheduleCheckIn` calls at most one response takes effect |
| SessionManager.NoEscalationOnceResponded | app/src/main/java/com/helpnow/trackme/TrackMeServiceManager.kt:117-133 | once answered, no response alerts until the next schedule (direct triggers aside) |
| SessionManager.AtMostOneEscalation | app/src/main/java/com/helpnow/trackme/TrackMeServiceManager.kt:116-134 | without direct triggers, the responses between two schedules alert at most once |
| SessionManager.FlagMirroredKept | app/src/main/java/com/helpnow/trackme/TrackMeServiceManager.kt:48-106 | the published tracking flag equals the persisted one after any call sequence |
| SessionManager.TrackMeServiceManager.constructor | app/src/main/java/com/helpnow/trackme/TrackMeServiceManager.kt:45-64 | the flows start from the persisted flag and count, and the response flag starts false |
| SessionManager.TrackMeServiceManager.StartTracking | app/src/main/java/com/helpnow/trackme/TrackMeServiceManager.kt:69-85 | the new state is `Started` of the old |
| SessionManager.TrackMeServiceManager.StopTracking | app/src/main/java/com/helpnow/trackme/TrackMeServiceManager.kt:87-96 | the new state is `Stopped` of the old |
| SessionManager.TrackMeServiceManager.OnHomeReached | app/src/main/java/com/helpnow/trackme/TrackMeServiceManager.kt:98-106 | the new state is `Arrived` of the old |
| SessionManager.TrackMeServiceManager.ScheduleCheckIn | app/src/main/java/com/helpnow/trackme/TrackMeServiceManager.kt:108-114 | the new state is `Scheduled` of the old |
| SessionManager.TrackMeServiceManager.OnCheckInResponse | app/src/main/java/com/helpnow/trackme/TrackMeServiceManager.kt:116-134 | the new state is `Responded` of the old |
| SessionManager.TrackMeServiceManager.TriggerEmergency | app/src/main/java/com/helpnow/trackme/TrackMeServiceManager.kt:136-142 | the new state is `Triggered` of the old |
| SessionManager.TrackMeServiceManager.MarkSafeFromNotification | app/src/main/java/com/helpnow/trackme/TrackMeServiceManager.kt:144-150 | the new state is `MarkedSafe` of the old |
| LocationService.CreatedEffect | app/src/main/java/com/helpnow/app/services/TrackMeService.kt:66-76 | on creation the index is 0, the first check-in is due five minutes after `now`, and no callback is registered |
| LocationService.ArrivalFirst | app/src/main/java/com/helpnow/app/services/TrackMeService.kt:134-142 | at home, the tick signals arrival, ends the session and the service, and arms nothing |
| LocationService.NoHomeNoArrival | app/src/main/java/com/helpnow/app/services/TrackMeService.kt:138 | with a zero home coordinate, arrival never fires and the service does not stop itself |
| LocationService.DueTick | app/src/main/java/com/helpnow/app/services/TrackMeService.kt:143-150 | a due tick raises the index by one, publishes one prompt with a deadline two minutes on, and persists the next due time, five minutes on |
| LocationService.EarlyTick | app/src/main/java/com/helpnow/app/services/TrackMeService.kt:143-144 | away from home, a tick before the due time changes nothing |
| LocationService.LocatedRecordsFix | app/src/main/java/com/helpnow/app/services/TrackMeService.kt:121-127 | every fix overwrites the last known location and forgets the address |
| LocationService.StopAction | app/src/main/java/com/helpnow/app/services/TrackMeService.kt:80-87 | the STOP action escalates once, ends the session and stops the service (not sticky) |
| LocationService.SafeAction | app/src/main/java/com/helpnow/app/services/TrackMeService.kt:88-91 | the SAFE action is `markSafeFromNotification` at the last known location; the session keeps running |
| LocationService.PacedCons | app/src/main/java/com/helpnow/app/services/TrackMeService.kt:143-148 | one armed check-in followed by a paced remainder is paced |
| LocationService.LocatedOne | app/src/main/java/com/helpnow/app/services/TrackMeService.kt:121-157 | one location result arms at most one check-in, and only by appending it |
| LocationService.TicksPaced | app/src/main/java/com/helpnow/app/services/TrackMeService.kt:120-157 | over any run of location results, the prompts are numbered consecutively and their deadlines are at least five minutes apart; the index never goes down |
| LocationService.TrackMeService.constructor | app/src/main/java/com/helpnow/app/services/TrackMeService.kt:66-76 | the state is `Created` |
| LocationService.TrackMeService.OnStartCommand | app/src/main/java/com/helpnow/app/services/TrackMeService.kt:78-115 | the new state and start mode are `Commanded` of the old |
| LocationService.TrackMeService.OnLocationResult | app/src/main/java/com/helpnow/app/services/TrackMeService.kt:120-127 | the new state is `Located` of the old |
| LocationService.TrackMeService.CheckHomeAndCheckIn | app/src/main/java/com/helpnow/app/services/TrackMeService.kt:134-157 | the new state is `Checked` of the old |
| LocationService.TrackMeService.StopTrackingAndStopSelf | app/src/main/java/com/helpnow/app/services/TrackMeService.kt:191-201 | the new state is `StoppedSelf` of the old |
| CheckInViewModel.EmergencyContactCount | app/src/main/java/com/helpnow/trackme/TrackMeViewModel.kt:80 | always 0 |
| CheckInViewModel.ShownReplaces | app/src/main/java/com/helpnow/trackme/TrackMeViewModel.kt:45-55 | a new event replaces the overlay and the pending timeout |
| CheckInViewModel.TimeoutOnlyWhenShowing | app/src/main/java/com/helpnow/trackme/TrackMeViewModel.kt:49-53 | the timeout answers TIMEOUT, at the event's location, exactly when its event is still showing |
| CheckInViewModel.AnsweredForwards | app/src/main/java/com/helpnow/trackme/TrackMeViewModel.kt:68-72 | a response cancels the timeout, hides the overlay and forwards once |
| CheckInViewModel.AnswerThenTimeout | app/src/main/java/com/helpnow/trackme/TrackMeViewModel.kt:47-72 | after an answer, a later timeout does nothing |
| CheckInViewModel.OnlyLatestTimesOut | app/src/main/java/com/helpnow/trackme/TrackMeViewModel.kt:45-55 | of two events in a row only the second times out, once, with its own location |
| CheckInViewModel.EscalationRaisesFlag | app/src/main/java/com/helpnow/trackme/TrackMeViewModel.kt:43-72 | an accepted NO or TIMEOUT raises `emergencyActive` |
| CheckInViewModel.DismissedEffect | app/src/main/java/com/helpnow/trackme/TrackMeViewModel.kt:74-76 | dismissing clears the welcome flag and nothing else |
| CheckInViewModel.MirrorsKept | app/src/main/java/com/helpnow/trackme/TrackMeViewModel.kt:39-58 | after any calls, the view model shows the controller's flag and count, and a pending timeout waits for the event on screen |
| CheckInViewModel.InitialMirrors | app/src/main/java/com/helpnow/trackme/TrackMeViewModel.kt:24-58 | at `init` these hold, with no overlay, no emergency and no welcome |
| CheckInViewModel.TrackMeViewModel.constructor | app/src/main/java/com/helpnow/trackme/TrackMeViewModel.kt:39-58 | the state is `InitialVm` of the controller |
| CheckInViewModel.TrackMeViewModel.Collect | app/src/main/java/com/helpnow/trackme/TrackMeViewModel.kt:40-43 | the collectors copy the flag and count, and a new signal raises its flag |
| CheckInViewModel.TrackMeViewModel.StartTracking | app/src/main/java/com/helpnow/trackme/TrackMeViewModel.kt:60-62 | the new state is `StartedVm` of the old |
| CheckInViewModel.TrackMeViewModel.StopTracking | app/src/main/java/com/helpnow/trackme/TrackMeViewModel.kt:64-66 | the new state is `StoppedVm` of the old |
| CheckInViewModel.TrackMeViewModel.OnOverlayEvent | app/src/main/java/com/helpnow/trackme/TrackMeViewModel.kt:45-55 | the new state is `Shown` of the old |
| CheckInViewModel.TrackMeViewModel.OnTimeoutElapsed | app/src/main/java/com/helpnow/trackme/TrackMeViewModel.kt:50-53 | the new state is `TimeoutElapsed` of the old |
| CheckInViewModel.TrackMeViewModel.OnCheckInResponse | app/src/main/java/com/helpnow/trackme/TrackMeViewModel.kt:68-72 | the new state is `Answered` of the old |
| CheckInViewModel.TrackMeViewModel.DismissWelcomeHome | app/src/main/java/com/helpnow/trackme/TrackMeViewModel.kt:74-76 | the new state is `Dismissed` of the old |
| CheckInViewModel.TrackMeViewModel.GetCheckInHistory | app/src/main/java/com/helpnow/trackme/TrackMeViewModel.kt:78 | the controller's persisted history, with no empty address |
| AppPrefs.LoggedInRoundTrip | app/src/main/java/com/helpnow/utils/SharedPreferencesManager.kt:54-66 | the login flag reads back as written and is false by default |
| AppPrefs.GetUserData | app/src/main/java/com/helpnow/utils/SharedPreferencesManager.kt:91-111 | a user exactly when all six strings are present, made of those strings |
| AppPrefs.UserDataRoundTrip | app/src/main/java/com/helpnow/utils/SharedPreferencesManager.kt:69-111 | saving a user and reading it back gives the same user |
| AppPrefs.UserDataAllOrNothing | app/src/main/java/com/helpnow/utils/SharedPreferencesManager.kt:93-98 | with any one of the six keys missing, no user is read |
| AppPrefs.EmergencyContacts | app/src/main/java/com/helpnow/utils/SharedPreferencesManager.kt:121-129 | no key reads as the empty list |
| AppPrefs.ContactsRoundTrip | app/src/main/java/com/helpnow/utils/SharedPreferencesManager.kt:113-129 | saved contacts read back unchanged |
| AppPrefs.PermissionKey | app/src/main/java/com/helpnow/utils/SharedPreferencesManager.kt:131-141 | a key exists exactly for the six known permissions |
| AppPrefs.PermissionKeysDistinct | app/src/main/java/com/helpnow/utils/SharedPreferencesManager.kt:133-139 | two different known permissions share a key only when they are fine and coarse location |
| AppPrefs.PermissionRoundTrip | app/src/main/java/com/helpnow/utils/SharedPreferencesManager.kt:131-164 | a saved status of a known permission reads back |
| AppPrefs.LocationPermissionsShared | app/src/main/java/com/helpnow/utils/SharedPreferencesManager.kt:134-153 | saving fine location also sets coarse location |
| AppPrefs.UnknownPermission | app/src/main/java/com/helpnow/utils/SharedPreferencesManager.kt:140-160 | an unknown permission writes nothing and reads as not granted |
| AppPrefs.PermissionFrame | app/src/main/java/com/helpnow/utils/SharedPreferencesManager.kt:131-147 | saving one permission leaves every permission with another key unchanged |
| AppPrefs.SettingsRoundTrip | app/src/main/java/com/helpnow/utils/SharedPreferencesManager.kt:174-220 | the voice guard flag, voiceprint, detection time and service status read back as written; an empty file gives on, null, 0 and `stopped` |
| AppPrefs.FalseAlarmsToday | app/src/main/java/com/helpnow/utils/SharedPreferencesManager.kt:192-200 | 0 unless the count was stored on `today` |
| AppPrefs.FalseAlarmCounts | app/src/main/java/com/helpnow/utils/SharedPreferencesManager.kt:202-212 | each increment adds one to today's count; the first one on a new day gives 1 |
| AppPrefs.FalseAlarmsForgotten | app/src/main/java/com/helpnow/utils/SharedPreferencesManager.kt:192-212 | alarms counted on one day read as 0 on any other |
| AppPrefs.CustomDangerPhrase | app/src/main/java/com/helpnow/utils/SharedPreferencesManager.kt:222-226 | the phrase read is at least five characters long |
| AppPrefs.PhraseTrimmed | app/src/main/java/com/helpnow/utils/SharedPreferencesManager.kt:224-225 | the phrase read is the default or already trimmed |
| AppPrefs.WithCustomDangerPhrase | app/src/main/java/com/helpnow/utils/SharedPreferencesManager.kt:228-234 | a phrase shorter than five once trimmed writes nothing |
| AppPrefs.DangerPhraseRoundTrip | app/src/main/java/com/helpnow/utils/SharedPreferencesManager.kt:222-234 | a long enough phrase reads back trimmed |
| AppPrefs.ShortPhraseIgnored | app/src/main/java/com/helpnow/utils/SharedPreferencesManager.kt:228-234 | saving a short phrase leaves the phrase read unchanged |
| AppPrefs.ClearedDefaults | app/src/main/java/com/helpnow/utils/SharedPreferencesManager.kt:166-220 | after `clearAllData` every getter gives its default (voice guard on, status `stopped`) |
| AppPrefs.ClearedPhrase | app/src/main/java/com/helpnow/utils/SharedPreferencesManager.kt:222-226 | after `clearAllData` the phrase is the default `I'm in danger 1` |
| AppPrefs.SharedPreferencesManager.constructor | app/src/main/java/com/helpnow/utils/SharedPreferencesManager.kt:43-52 | the object views the given file |
| AppPrefs.SharedPreferencesManager.SetLoggedIn | app/src/main/java/com/helpnow/utils/SharedPreferencesManager.kt:62-66 | the file after the edit |
| AppPrefs.SharedPreferencesManager.SaveUserData | app/src/main/java/com/helpnow/utils/SharedPreferencesManager.kt:69-89 | the six strings written in one edit |
| AppPrefs.SharedPreferencesManager.SaveEmergencyContacts | app/src/main/java/com/helpnow/utils/SharedPreferencesManager.kt:113-119 | the contact list written under its key |
| AppPrefs.SharedPreferencesManager.SavePermissionStatus | app/src/main/java/com/helpnow/utils/SharedPreferencesManager.kt:131-147 | the status written under the permission's key, if it has one |
| AppPrefs.SharedPreferencesManager.ClearAllData | app/src/main/java/com/helpnow/utils/SharedPreferencesManager.kt:166-171 | the file is empty |
| AppPrefs.SharedPreferencesManager.SetVoiceGuardEnabled | app/src/main/java/com/helpnow/utils/SharedPreferencesManager.kt:176-178 | the flag written |
| AppPrefs.SharedPreferencesManager.SaveUserVoiceprint | app/src/main/java/com/helpnow/utils/SharedPreferencesManager.kt:182-184 | the hash written |
| AppPrefs.SharedPreferencesManager.SetLastDetectionTime | app/src/main/java/com/helpnow/utils/SharedPreferencesManager.kt:188-190 | the time written |
| AppPrefs.SharedPreferencesManager.IncrementFalseAlarmsToday | app/src/main/java/com/helpnow/utils/SharedPreferencesManager.kt:202-212 | today's count plus one written, with today's date |
| AppPrefs.SharedPreferencesManager.SetVoiceServiceStatus | app/src/main/java/com/helpnow/utils/SharedPreferencesManager.kt:218-220 | the status written |
| AppPrefs.SharedPreferencesManager.SaveCustomDangerPhrase | app/src/main/java/com/helpnow/utils/SharedPreferencesManager.kt:228-234 | the trimmed phrase written when it is long enough |
| VoiceGuard.ContainsAnyWord | app/src/main/java/com/helpnow/voice/VoiceListenerService.kt:224-228 | true iff one of the number words occurs in the text |
| VoiceGuard.NoDigitNoDetection | app/src/main/java/com/helpnow/voice/VoiceListenerService.kt:223-229 | a text with no digit and no number word is never a detection |
| VoiceGuard.DetectionNeedsConfidence | app/src/main/java/com/helpnow/voice/VoiceListenerService.kt:232-237 | a detection needs speech confidence at the threshold, and a voice score at the threshold from the matcher when a voiceprint is stored |
| VoiceGuard.SecondTestSubsumed | app/src/main/java/com/helpnow/voice/VoiceListenerService.kt:220-230 | if the lowercased text contains the normalised phrase, the normalised text contains the phrase without spaces |
| VoiceGuard.PhraseMatchesIff | app/src/main/java/com/helpnow/voice/VoiceListenerService.kt:230 | so the phrase test is the first containment alone |
| VoiceGuard.DetectsIff | app/src/main/java/com/helpnow/voice/VoiceListenerService.kt:217-242 | a detection iff: a digit or number word, the containment, the voice confidence and the speech confidence at the threshold |
| VoiceGuard.FirstAccepted | app/src/main/java/com/helpnow/voice/VoiceListenerService.kt:192-209 | the index of the first alternative that passes, or none when no alternative passes |
| VoiceGuard.FirstMatch | app/src/main/java/com/helpnow/voice/VoiceListenerService.kt:192-209 | the `for` loop that stops at the first passing alternative finds `FirstAccepted` |
| VoiceGuard.ResultsAtMostOne | app/src/main/java/com/helpnow/voice/VoiceListenerService.kt:188-201 | one batch of results launches at most one SOS, and a detection skips the restart |
| VoiceGuard.NoMatchesNoRestart | app/src/main/java/com/helpnow/voice/VoiceListenerService.kt:190 | results without a list change nothing |
| VoiceGuard.OnePendingRestart | app/src/main/java/com/helpnow/voice/VoiceListenerService.kt:167-174 | while a restart is pending another is not posted; a restart starts the recogniser at most once |
| VoiceGuard.DisabledNeverListens | app/src/main/java/com/helpnow/voice/VoiceListenerService.kt:138 | with Voice Guard disabled the recogniser never starts |
| VoiceGuard.StopEffect | app/src/main/java/com/helpnow/voice/VoiceListenerService.kt:260-268 | stop pauses and records status `stopped`; the STOP action also stops the service, not sticky |
| VoiceGuard.PausedStaysQuiet | app/src/main/java/com/helpnow/voice/VoiceListenerService.kt:73-187 | once paused, no command, end of speech or restart starts the recogniser again |
| VoiceGuard.VoiceListenerService.constructor | app/src/main/java/com/helpnow/voice/VoiceListenerService.kt:66-71 | not paused, no restart pending, nothing started or detected |
| VoiceGuard.VoiceListenerService.OnStartCommand | app/src/main/java/com/helpnow/voice/VoiceListenerService.kt:73-85 | the new state and start mode are `VoiceCommanded` of the old |
| VoiceGuard.VoiceListenerService.StartListening | app/src/main/java/com/helpnow/voice/VoiceListenerService.kt:137-165 | the new state is `ListeningStarted` of the old |
| VoiceGuard.VoiceListenerService.ScheduleRestart | app/src/main/java/com/helpnow/voice/VoiceListenerService.kt:167-174 | the new state is `RestartScheduled` of the old |
| VoiceGuard.VoiceListenerService.OnRestartDelayElapsed | app/src/main/java/com/helpnow/voice/VoiceListenerService.kt:169-173 | the new state is `RestartFired` of the old |
| VoiceGuard.VoiceListenerService.OnSpeechEnded | app/src/main/java/com/helpnow/voice/VoiceListenerService.kt:181-187 | the new state is `SpeechEnded` of the old |
| VoiceGuard.VoiceListenerService.StopListening | app/src/main/java/com/helpnow/voice/VoiceListenerService.kt:260-268 | the new state is `ListeningStopped` of the old |
| VoiceGuard.VoiceListenerService.OnPhraseDetected | app/src/main/java/com/helpnow/voice/VoiceListenerService.kt:244-258 | the new state is `PhraseDetected` of the old |
| VoiceGuard.VoiceListenerService.OnResults | app/src/main/java/com/helpnow/voice/VoiceListenerService.kt:188-201 | the new state is `ResultsHandled` of the old |
| VoiceGuard.VoiceListenerService.OnPartialResults | app/src/main/java/com/helpnow/voice/VoiceListenerService.kt:202-213 | the new state is `PartialResultsHandled` of the old |
| VoiceGuard.VoiceListenerService.OnDestroy | app/src/main/java/com/helpnow/voice/VoiceListenerService.kt:270-273 | the new state is `ListeningStopped` of the old |
| SilenceDetector.NoiseClears | app/src/main/java/com/helpnow/app/voice/AudioBufferManager.kt:44-47 | a loud buffer never fires and ends the silence period |
| SilenceDetector.SilenceStart | app/src/main/java/com/helpnow/app/voice/AudioBufferManager.kt:34-37 | only the first silent buffer of a stretch records the start time |
| SilenceDetector.FiresIff | app/src/main/java/com/helpnow/app/voice/AudioBufferManager.kt:33-47 | fires iff the buffer is silent and the stretch began at least `duration` ago; a fire ends the period and counts one event |
| SilenceDetector.FirstSilentBufferWaits | app/src/main/java/com/helpnow/app/voice/AudioBufferManager.kt:34-43 | with a positive duration the first silent buffer never fires |
| SilenceDetector.ResetEffect | app/src/main/java/com/helpnow/app/voice/AudioBufferManager.kt:71-73 | reset ends the silence period and keeps the rest |
| SilenceDetector.RunEvents | app/src/main/java/com/helpnow/app/voice/AudioBufferManager.kt:29-73 | one answer per event |
| SilenceDetector.StepTracks | app/src/main/java/com/helpnow/app/voice/AudioBufferManager.kt:29-52 | one event keeps the start time equal to the first buffer of the current silent run, and any fire it makes closes a long enough run |
| SilenceDetector.FiresOnlyAfterSilence | app/src/main/java/com/helpnow/app/voice/AudioBufferManager.kt:29-73 | from the initial detector, every fire ends a run of silent buffers, with no noise and no reset, spanning at least `duration` |
| SilenceDetector.EventsCounted | app/src/main/java/com/helpnow/app/voice/AudioBufferManager.kt:39-42 | the silence count grows by exactly the number of fires |
| SilenceDetector.MeanSquareBound | app/src/main/java/com/helpnow/app/voice/AudioBufferManager.kt:54-62 | the squared level is between 0 and 1 |
| SilenceDetector.ZerosAreSilent | app/src/main/java/com/helpnow/app/voice/AudioBufferManager.kt:54-62 | a buffer of zeros has level 0 |
| SilenceDetector.AudioBufferManager.constructor | app/src/main/java/com/helpnow/app/voice/AudioBufferManager.kt:12-14 | not in silence, no events, the given duration |
| SilenceDetector.AudioBufferManager.ProcessBuffer | app/src/main/java/com/helpnow/app/voice/AudioBufferManager.kt:29-52 | the new state and answer are `Processed` of the old |
| SilenceDetector.AudioBufferManager.ComputeMeanSquare | app/src/main/java/com/helpnow/app/voice/AudioBufferManager.kt:54-62 | the loop computes the mean of the squared normalised samples (0 for an empty buffer), a value between 0 and 1 |
| SilenceDetector.AudioBufferManager.Reset | app/src/main/java/com/helpnow/app/voice/AudioBufferManager.kt:71-73 | the new state is `ResetDetector` of the old |
| ContactsForm.UsableContacts | app/src/main/java/com/helpnow/screens/EmergencyContactsScreen.kt:282-285 | every contact kept is usable, and a contact is kept iff it is in the list and usable |
| ContactsForm.UpdatedEffect | app/src/main/java/com/helpnow/screens/EmergencyContactsScreen.kt:44-53 | only the edited entry changes, only in the fields passed |
| ContactsForm.AddedEffect | app/src/main/java/com/helpnow/screens/EmergencyContactsScreen.kt:55-61 | a blank Friend contact is appended below five, nothing at five |
| ContactsForm.RemovedEffect | app/src/main/java/com/helpnow/screens/EmergencyContactsScreen.kt:63-69 | above three, exactly that entry is removed and the others keep their order; at three, nothing changes |
| ContactsForm.PhoneFilter | app/src/main/java/com/helpnow/screens/EmergencyContactsScreen.kt:192-196 | the phone field takes a text iff it has at most ten digits, and stores it as typed |
| ContactsForm.CountIsFilterLength | app/src/main/java/com/helpnow/screens/EmergencyContactsScreen.kt:282-285 | the count Next is gated on equals the number of contacts Next passes on |
| ContactsForm.UsableContactsConcat | app/src/main/java/com/helpnow/screens/EmergencyContactsScreen.kt:282-285 | the filter distributes over concatenation |
| ContactsForm.UsableKeepsOrder | app/src/main/java/com/helpnow/screens/EmergencyContactsScreen.kt:282-285 | a usable entry is passed at the position counted by the usable entries before it |
| ContactsForm.ProceedIff | app/src/main/java/com/helpnow/screens/EmergencyContactsScreen.kt:71-74 | Next is enabled iff it passes on at least three contacts |
| ContactsForm.InitialCannotProceed | app/src/main/java/com/helpnow/screens/EmergencyContactsScreen.kt:34-74 | the three blank initial contacts have the right size and cannot proceed |
| ContactsForm.InitialInvariant | app/src/main/java/com/helpnow/screens/EmergencyContactsScreen.kt:34-42 | the initial list keeps the screen invariant |
| ContactsForm.EditKeepsInvariant | app/src/main/java/com/helpnow/screens/EmergencyContactsScreen.kt:44-232 | each edit keeps three to five contacts, phones of at most ten digits and relationships from the menu |
| ContactsForm.EditsKeepInvariant | app/src/main/java/com/helpnow/screens/EmergencyContactsScreen.kt:44-232 | any sequence of edits keeps the invariant |
| ContactsForm.ContactsScreen.constructor | app/src/main/java/com/helpnow/screens/EmergencyContactsScreen.kt:34-42 | three blank Friend contacts |
| ContactsForm.ContactsScreen.UpdateContact | app/src/main/java/com/helpnow/screens/EmergencyContactsScreen.kt:44-53 | the list is `Updated` of the old |
| ContactsForm.ContactsScreen.AddContact | app/src/main/java/com/helpnow/screens/EmergencyContactsScreen.kt:55-61 | the list is `Added` of the old |
| ContactsForm.ContactsScreen.RemoveContact | app/src/main/java/com/helpnow/screens/EmergencyContactsScreen.kt:63-69 | the list is `Removed` of the old |
| ContactsForm.ContactsScreen.OnPhoneChange | app/src/main/java/com/helpnow/screens/EmergencyContactsScreen.kt:192-196 | the list is `PhoneEdited` of the old |
| ContactsForm.ContactsScreen.OnNext | app/src/main/java/com/helpnow/screens/EmergencyContactsScreen.kt:282-285 | the loop passes exactly the usable contacts, in order |
| ProfileForm.DobCandidateDashes | app/src/main/java/com/helpnow/screens/UserProfileScreen.kt:181-186 | a dash is added after two and after five characters, only when the field grew past that length |
| ProfileForm.DobFilter | app/src/main/java/com/helpnow/screens/UserProfileScreen.kt:187-190 | a candidate is stored, clearing the error, iff it has at most ten digits and dashes; otherwise nothing changes |
| ProfileForm.MaskedStep | app/src/main/java/com/helpnow/screens/UserProfileScreen.kt:179-191 | one more digit turns the mask of `ds` into the mask of `ds + [c]` |
| ProfileForm.TypeDigit | app/src/main/java/com/helpnow/screens/UserProfileScreen.kt:179-191 | typing a digit after a masked text stores the next mask |
| ProfileForm.EightDigitsShaped | app/src/main/java/com/helpnow/screens/UserProfileScreen.kt:179-191 | the mask of eight digits has the `dd-dd-dddd` shape |
| ProfileForm.TypingDigits | app/src/main/java/com/helpnow/screens/UserProfileScreen.kt:179-191 | typing up to eight digits into an empty field gives their mask |
| ProfileForm.TypingEightDigits | app/src/main/java/com/helpnow/screens/UserProfileScreen.kt:179-191 | eight digits typed into an empty field make a date of the shape validation asks for |
| ProfileForm.FullDateIgnoresMore | app/src/main/java/com/helpnow/screens/UserProfileScreen.kt:187 | a full ten-character date takes no more characters |
| ProfileForm.SubmitEffect | app/src/main/java/com/helpnow/screens/UserProfileScreen.kt:284-304 | Submit marks exactly the failing fields, changes nothing else, and proceeds iff none fails |
| ProfileForm.EnabledSubmitProceeds | app/src/main/java/com/helpnow/screens/UserProfileScreen.kt:284-314 | with the button enabled, Submit proceeds with the entered profile and marks nothing |
| ProfileForm.ValidIsSubmitPlusName | app/src/main/java/com/helpnow/screens/UserProfileScreen.kt:284-304 | `isValid` is the handler's test plus a non-blank name; `"   "` passes the name check but is blank |
| ProfileForm.ValidShapes | app/src/main/java/com/helpnow/screens/UserProfileScreen.kt:49-53 | a valid form has a `dd-dd-dddd` date, a name of three or more and an address of five or more characters |
| ProfileForm.ListedCityNotBlank | app/src/main/java/com/helpnow/screens/UserProfileScreen.kt:261-267 | every city the menu offers passes the city test |
| ProfileForm.EditThenSubmit | app/src/main/java/com/helpnow/screens/UserProfileScreen.kt:104-304 | an edit clears its field's mark; the next Submit marks it again iff the new value fails; a city from the menu never fails |
| ProfileForm.GenderPassedOn | app/src/main/java/com/helpnow/screens/UserProfileScreen.kt:137-304 | the gender buttons never affect validity, and the chosen gender is handed on |
| ProfileForm.ProfileScreen.constructor | app/src/main/java/com/helpnow/screens/UserProfileScreen.kt:32-42 | empty fields, gender Female, no errors |
| ProfileForm.ProfileScreen.OnNameChange | app/src/main/java/com/helpnow/screens/UserProfileScreen.kt:104-106 | the form is `NameEdited` of the old |
| ProfileForm.ProfileScreen.OnGenderClick | app/src/main/java/com/helpnow/screens/UserProfileScreen.kt:137-157 | the form is `GenderPicked` of the old |
| ProfileForm.ProfileScreen.OnAddressChange | app/src/main/java/com/helpnow/screens/UserProfileScreen.kt:213-215 | the form is `AddressEdited` of the old |
| ProfileForm.ProfileScreen.OnCitySelected | app/src/main/java/com/helpnow/screens/UserProfileScreen.kt:265-267 | the form is `CityPicked` of the old |
| ProfileForm.ProfileScreen.OnDobChange | app/src/main/java/com/helpnow/screens/UserProfileScreen.kt:179-191 | the form is `DobEdited` of the old |
| ProfileForm.ProfileScreen.OnSubmit | app/src/main/java/com/helpnow/screens/UserProfileScreen.kt:284-304 | the form and the next step are `Submitted` of the old |

## Left out

**I/O and the platform.**

- The following are left out, because they only talk to the platform or
  to other components:
  - Android plumbing: notifications, channels, foreground-service start,
    binders, intents and activity launches.
  - The SMS, call and SOS modules.
- Each of those outside effects is recorded instead:
  - an alert counter (`alertsSent`);
  - a list of dialled numbers (`callsPlaced`);
  - a log of SOS launches (`detections`);
  - a count of recogniser starts (`listeningStarts`).
- Concurrency is not modelled:
  - the `AtomicBoolean` compare-and-set is a plain test-and-set;
  - the coroutine collectors run as explicit calls (`Collect`,
    `OnOverlayEvent`, `OnTimeoutElapsed`);
  - the `Handler` delays are explicit events (`OnRestartDelayElapsed`).
- The `WeakReference` context that is null (the early `return`s in the
  controller) is left out. The model assumes the context is always there.
- `startLocationUpdates` builds the location request and registers the
  callback with the fused client. The model keeps only two of its effects:
  the permission branch and the `callbackRegistered` flag.
- `scheduleResume` in `AudioBufferManager` (only a `Handler` timer and two
  callbacks) is left out.

**Time, numbers and text.**

- The clock is the parameter `now`:
  - `processBuffer` reads the clock twice; the model reads it once per
    buffer;
  - `getFalseAlarmsToday` and `incrementFalseAlarmsToday` format today's
    date; the model takes it as the parameter `today`.
- Latitudes, longitudes, levels and confidences are exact reals, not
  `Float`/`Double`:
  - the `Float` rounding of the home coordinates is not modelled;
  - the RMS level is modelled as its square (`MeanSquare`), without the
    square root and without the decibel conversion;
  - whether a buffer is under the silence threshold is the boolean
    `silent`.
- `VOICE_SILENCE_DURATION_MS` and the voice confidence threshold are
  constructor and step parameters, because the constants file that defines
  them is not part of this model.
- Character classes are ASCII: digits, letters, whitespace and lowercasing.
  Kotlin's `isDigit`, `isLetter`, `isWhitespace` and `lowercase()` also
  accept other Unicode characters.
- JSON is modelled structurally: a stored value holds the list of records
  or of contacts. Any other value at the key is text that does not parse.
- Error texts are string resources, named here by their resource names.
- Text lengths count characters, where Kotlin's `String.length` counts
  UTF-16 code units. The two differ only on characters outside the Basic
  Multilingual Plane (emoji, for instance), each of which Kotlin counts as
  two. The members whose length tests this affects:
- `Validation.ValidateAddress`: "😀😀😀" has Kotlin length 6 and passes the
  five-character minimum, but the model counts 3 and rejects it.
- `Validation.ValidateName`: the three-character minimum counts characters.
  Letters outside the Basic Multilingual Plane are not ASCII letters, so the
  model rejects them anyway.
- `AppPrefs.CustomDangerPhrase`: the five-character minimum on the stored
  phrase counts characters, not UTF-16 units.
- `AppPrefs.WithCustomDangerPhrase`: the five-character minimum on the
  trimmed phrase counts characters, not UTF-16 units.
- Kotlin `Int` and `Long` values are unbounded integers, so overflow is not
  modelled. Examples are `checkInCount`, the false-alarm count, the
  check-in index and times such as `now + 300000`.

**Exception paths.**

- `startListening` catching an exception and scheduling a restart is left
  out.
- `onPhraseDetected` catching an exception is left out.
- The `try`/`catch` around `onResults` is left out.
- `TrackMePrefs.History`: a history value that is not a string reads as the
  empty history (`TrackMePrefs.CorruptHistoryIsEmpty`). In the code,
  `getString` throws ClassCastException there, outside the `try`, and the
  exception reaches the caller. No writer in the app stores a value of
  another type under that key.
- The recogniser itself is left out. Its results arrive as the `matches`
  and `confidences` parameters.
- `VoiceprintMatcher` is not part of this model. It is the parameter
  `scoreOf`, whose None means the matcher throws.

**Parameters and preconditions.**

- `ContactsForm.Updated`, `ContactsForm.Removed` and
  `ContactsForm.PhoneEdited` require an index inside the list. The screen
  only shows the existing entries, and `removeAt` or the list update would
  throw otherwise.
- `GeofenceManager.isWithinHomeRadius` is the function parameter `within`.
  Its haversine arithmetic is not modelled.
- `TrackMePreferences.setNextCheckInTime` is called by the service but is
  not in the preferences file shown. It is modelled on its own key,
  `next_check_in_time`.
- `AppPrefs.CustomDangerPhrase`: its own contract states only the minimum
  length. The trimming and the round trip are stated by
  `AppPrefs.PhraseTrimmed` and `AppPrefs.DangerPhraseRoundTrip`.
- `Validation.ValidateOTP`: its own contract states only the length. The
  membership iff is `Validation.OTPIsMembership`.

**Where the model follows the code rather than the intended behaviour.**

- `triggerEmergency` has no guard of its own: every call alerts and dials
  again (`SessionManager.TriggeredTwice`).
- The controller's response flag starts false. A response before any
  scheduled check-in is therefore recorded
  (`SessionManager.ResponseBeforeAnySchedule`).
- `startTracking` and `stopTracking` do not reset the response flag.
- There is no check that the index of a response is current.
- On the arrival tick, `stopTrackingAndStopSelf` calls `stopTracking` right
  after `onHomeReached`. That clears the welcome message again.
- Location ticks are not gated on `callbackRegistered`.
- A due location tick arms a new check-in even while the previous one is
  still unanswered: `checkHomeAndCheckIn` does not test for a pending
  check-in, and `scheduleCheckIn` sets the response flag back to false
  (`LocationService.DueTick`, `SessionManager.ScheduledEffect`).
- `validateName` accepts a name of spaces only. The Submit button is gated
  by `isValid`, which also needs a non-blank name.
