/**
 * The voice guard listener (`com.helpnow.voice.VoiceListenerService`): the
 * danger-phrase test applied to each recognised text, the loops over the
 * recogniser's alternatives, the single pending restart, and the
 * start/stop dispatch.
 *
 * The recogniser, the notification and the SOS activity are outside the
 * model: starting the recogniser is counted (`listeningStarts`), and each
 * detection is logged with its text (`detections`, one SOS activity each).
 * The voiceprint matcher is a parameter `scoreOf` giving its score for a
 * text, or None where it throws; the confidence threshold is a parameter,
 * since `Constants` does not define it.
 */
module VoiceGuard {
  import opened Common
  import opened Records
  import opened KeyValue
  import opened AppPrefs

  const ACTION_STOP_VOICE := "com.helpnow.STOP_VOICE_SERVICE"
  /** Speech confidence used when the recogniser reports none. */
  const DEFAULT_SPEECH_CONFIDENCE := 0.8
  /** `VoiceServiceState.LISTENING.name.lowercase()` */
  const STATUS_LISTENING := "listening"
  /** `VoiceServiceState.STOPPED.name.lowercase()` */
  const STATUS_STOPPED := "stopped"
  const NUMBER_WORDS: seq<string> := ["zero", "one", "two", "three", "four", "five", "six", "seven", "eight", "nine"]

  // ---------------------------------------------------------------------
  // The danger-phrase test

  /** Some word of `words` occurs in `s`. */
  function ContainsAnyWord(s: string, words: seq<string>): (r: bool)
    ensures r <==> exists k :: 0 <= k < |words| && Contains(s, words[k])
  {
    if words == [] then false
    else Contains(s, words[0]) || ContainsAnyWord(s, words[1..])
  }

  /** A digit character, or a number word anywhere in the lowercased text. */
  function HasDigit(text: string): bool {
    AnyChar(text, IsDigit) || ContainsAnyWord(Lower(text), NUMBER_WORDS)
  }

  /** The recognised text lowercased, without apostrophes and spaces, trimmed. */
  function NormalizedText(text: string): string {
    Trim(RemoveChar(RemoveChar(Lower(text), '\''), ' '))
  }

  /** The phrase lowercased, without apostrophes, trimmed. */
  function PhraseNorm(phrase: string): string {
    Trim(RemoveChar(Lower(phrase), '\''))
  }

  function PhraseNoSpaces(phrase: string): string {
    RemoveChar(PhraseNorm(phrase), ' ')
  }

  /** The two containment tests of `checkDangerPhrase`. */
  predicate PhraseMatches(text: string, phrase: string) {
    Contains(NormalizedText(text), PhraseNoSpaces(phrase)) || Contains(Lower(text), PhraseNorm(phrase))
  }

  /** No voiceprint stored (null or blank): the voice confidence is 1. */
  predicate NoVoiceprint(voiceprint: Option<string>) {
    voiceprint.None? || IsBlank(voiceprint.value)
  }

  /**
   * `checkDangerPhrase(text, speechConfidence)` with the stored phrase and
   * voiceprint. `score` is the matcher's result for this text (None where it
   * throws, which the source catches and answers false).
   */
  function Detects(text: string, phrase: string, speechConfidence: real, voiceprint: Option<string>,
                   score: Option<real>, threshold: real): bool {
    && HasDigit(text)
    && PhraseMatches(text, phrase)
    && (NoVoiceprint(voiceprint) || score.Some?)
    && (if NoVoiceprint(voiceprint) then 1.0 else score.value) >= threshold
    && speechConfidence >= threshold
  }

  lemma NoDigitNoDetection(text: string, phrase: string, c: real, vp: Option<string>, score: Option<real>, threshold: real)
    requires forall i :: 0 <= i < |text| ==> !IsDigit(text[i])
    requires forall k :: 0 <= k < |NUMBER_WORDS| ==> !Contains(Lower(text), NUMBER_WORDS[k])
    ensures !Detects(text, phrase, c, vp, score, threshold)
  {
  }

  lemma DetectionNeedsConfidence(text: string, phrase: string, c: real, vp: Option<string>, score: Option<real>, threshold: real)
    requires Detects(text, phrase, c, vp, score, threshold)
    ensures c >= threshold
    ensures NoVoiceprint(vp) ==> 1.0 >= threshold
    ensures !NoVoiceprint(vp) ==> score.Some? && score.value >= threshold
  {
  }

  lemma PhraseNormNoApostrophe(phrase: string)
    ensures forall i :: 0 <= i < |PhraseNorm(phrase)| ==> PhraseNorm(phrase)[i] != '\''
  {
    TrimKeepsAbsent(RemoveChar(Lower(phrase), '\''), '\'');
  }

  /** Without spaces the normalised phrase still starts and ends with a non-whitespace character. */
  lemma PhraseNoSpacesEnds(phrase: string)
    ensures PhraseNoSpaces(phrase) == [] || (!IsWhitespace(PhraseNoSpaces(phrase)[0])
                                             && !IsWhitespace(PhraseNoSpaces(phrase)[|PhraseNoSpaces(phrase)| - 1]))
  {
    var pn := PhraseNorm(phrase);
    TrimmedEnds(RemoveChar(Lower(phrase), '\''));
    if pn != [] {
      RemoveCharHead(pn, ' ');
      RemoveCharLast(pn, ' ');
    }
  }

  /** Removing apostrophes, then spaces, works block by block around an apostrophe-free middle. */
  lemma StripAround(a: string, pn: string, b: string)
    requires forall i :: 0 <= i < |pn| ==> pn[i] != '\''
    ensures RemoveChar(RemoveChar(a + pn + b, '\''), ' ')
         == RemoveChar(RemoveChar(a, '\''), ' ') + RemoveChar(pn, ' ') + RemoveChar(RemoveChar(b, '\''), ' ')
  {
    RemoveCharAbsent(pn, '\'');
    RemoveCharConcat(a + pn, b, '\'');
    RemoveCharConcat(a, pn, '\'');
    var a1, b1 := RemoveChar(a, '\''), RemoveChar(b, '\'');
    RemoveCharConcat(a1 + pn, b1, ' ');
    RemoveCharConcat(a1, pn, ' ');
  }

  /** Normalising a text keeps a block that has no apostrophe and non-blank ends, with its spaces removed. */
  lemma NormalizedAround(a: string, pn: string, b: string)
    requires forall i :: 0 <= i < |pn| ==> pn[i] != '\''
    requires var p := RemoveChar(pn, ' '); p != [] && !IsWhitespace(p[0]) && !IsWhitespace(p[|p| - 1])
    ensures Contains(Trim(RemoveChar(RemoveChar(a + pn + b, '\''), ' ')), RemoveChar(pn, ' '))
  {
    var p := RemoveChar(pn, ' ');
    StripAround(a, pn, b);
    var a2, b2 := RemoveChar(RemoveChar(a, '\''), ' '), RemoveChar(RemoveChar(b, '\''), ' ');
    TrimAround(a2, p, b2);
    ContainsMiddle(TrimStart(a2), p, TrimEnd(b2));
  }

  /** The same on any text `low` containing the block `pn`. */
  lemma ContainedAfterNormalizing(low: string, pn: string)
    requires Contains(low, pn)
    requires forall i :: 0 <= i < |pn| ==> pn[i] != '\''
    requires var p := RemoveChar(pn, ' '); p == [] || (!IsWhitespace(p[0]) && !IsWhitespace(p[|p| - 1]))
    ensures Contains(Trim(RemoveChar(RemoveChar(low, '\''), ' ')), RemoveChar(pn, ' '))
  {
    var p := RemoveChar(pn, ' ');
    if p == [] {
      assert OccursAt(Trim(RemoveChar(RemoveChar(low, '\''), ' ')), p, 0);
    } else {
      var i :| OccursAt(low, pn, i);
      var a, b := low[..i], low[i + |pn|..];
      assert low == a + pn + b;
      NormalizedAround(a, pn, b);
    }
  }

  /**
   * The second containment test adds nothing: if the lowercased text
   * contains the normalised phrase, the normalised text contains the phrase
   * without spaces.
   */
  lemma SecondTestSubsumed(text: string, phrase: string)
    requires Contains(Lower(text), PhraseNorm(phrase))
    ensures Contains(NormalizedText(text), PhraseNoSpaces(phrase))
  {
    PhraseNormNoApostrophe(phrase);
    PhraseNoSpacesEnds(phrase);
    ContainedAfterNormalizing(Lower(text), PhraseNorm(phrase));
  }

  /** Hence the phrase test is the first containment alone. */
  lemma PhraseMatchesIff(text: string, phrase: string)
    ensures PhraseMatches(text, phrase) <==> Contains(NormalizedText(text), PhraseNoSpaces(phrase))
  {
    if Contains(Lower(text), PhraseNorm(phrase)) {
      SecondTestSubsumed(text, phrase);
    }
  }

  /** `checkDangerPhrase` with its redundant second containment dropped. */
  lemma DetectsIff(text: string, phrase: string, c: real, vp: Option<string>, score: Option<real>, threshold: real)
    ensures Detects(text, phrase, c, vp, score, threshold) <==>
      && HasDigit(text)
      && Contains(NormalizedText(text), PhraseNoSpaces(phrase))
      && (if NoVoiceprint(vp) then 1.0 >= threshold else score.Some? && score.value >= threshold)
      && c >= threshold
  {
    PhraseMatchesIff(text, phrase);
  }

  /** The index of the first text that `accept` holds of, if any. */
  function FirstAccepted(texts: seq<string>, accept: string -> bool): (r: Option<nat>)
    ensures r.Some? ==> r.value < |texts| && accept(texts[r.value])
    ensures r.Some? ==> forall j :: 0 <= j < r.value ==> !accept(texts[j])
    ensures r.None? ==> forall j :: 0 <= j < |texts| ==> !accept(texts[j])
  {
    if texts == [] then None
    else if accept(texts[0]) then Some(0)
    else
      match FirstAccepted(texts[1..], accept)
      case None => None
      case Some(k) => Some(k + 1)
  }

  /** The phrase test of one alternative, with everything but its text fixed. */
  function DangerTest(phrase: string, c: real, vp: Option<string>, scoreOf: string -> Option<real>,
                      threshold: real): string -> bool {
    t => Detects(t, phrase, c, vp, scoreOf(t), threshold)
  }

  /** The `for (text in matches)` scan that stops at the first text passing `accept`. */
  method FirstMatch(texts: seq<string>, accept: string -> bool) returns (found: Option<nat>)
    ensures found == FirstAccepted(texts, accept)
  {
    var i := 0;
    while i < |texts|
      invariant 0 <= i <= |texts|
      invariant forall j :: 0 <= j < i ==> !accept(texts[j])
    {
      if accept(texts[i]) {
        assert FirstAccepted(texts, accept) == Some(i);
        return Some(i);
      }
      i := i + 1;
    }
    return None;
  }

  // ---------------------------------------------------------------------
  // Listener state

  datatype Voice = Voice(
    prefs: Store,
    isPaused: bool,
    isRestarting: bool,
    listeningStarts: nat,
    detections: seq<string>,
    selfStopped: bool)

  /** `startListening()`; `audioGranted` is the RECORD_AUDIO permission check. */
  function ListeningStarted(v: Voice, audioGranted: bool): Voice {
    if !IsVoiceGuardEnabled(v.prefs) then v
    else if !audioGranted then v.(prefs := WithVoiceServiceStatus(v.prefs, STATUS_STOPPED), selfStopped := true)
    else v.(prefs := WithVoiceServiceStatus(v.prefs, STATUS_LISTENING), listeningStarts := v.listeningStarts + 1)
  }

  /** `scheduleRestart()`: posts the delayed restart unless one is pending. */
  function RestartScheduled(v: Voice): Voice {
    if v.isRestarting then v else v.(isRestarting := true)
  }

  /** The posted restart runs two seconds later; with none pending nothing runs. */
  function RestartFired(v: Voice, audioGranted: bool): Voice {
    if !v.isRestarting then v
    else
      var v1 := v.(isRestarting := false);
      if !v1.isPaused && IsVoiceGuardEnabled(v1.prefs) then ListeningStarted(v1, audioGranted) else v1
  }

  /** `stopListening()` */
  function ListeningStopped(v: Voice): Voice {
    v.(isPaused := true, prefs := WithVoiceServiceStatus(v.prefs, STATUS_STOPPED))
  }

  /** `onEndOfSpeech()` and `onError(…)` */
  function SpeechEnded(v: Voice): Voice {
    if !v.isPaused then RestartScheduled(v) else v
  }

  /** `onPhraseDetected(text, …)` at time `now`. */
  function PhraseDetected(v: Voice, text: string, now: int): Voice {
    v.(prefs := WithLastDetectionTime(v.prefs, now), detections := v.detections + [text])
  }

  /** `onStartCommand` for an intent with `action`. */
  function VoiceCommanded(v: Voice, action: Option<string>, audioGranted: bool): (Voice, StartMode) {
    if action == Some(ACTION_STOP_VOICE) then
      (ListeningStopped(v).(selfStopped := true), NotSticky)
    else if !v.isPaused then (ListeningStarted(v, audioGranted), Sticky)
    else (v, Sticky)
  }

  /** The speech confidence `onResults` uses: the first score reported, else 0.8. */
  function SpeechConfidence(confidences: Option<seq<real>>): real {
    if confidences.Some? && |confidences.value| > 0 then confidences.value[0] else DEFAULT_SPEECH_CONFIDENCE
  }

  /** `onResults`: stop at the first alternative detected; otherwise restart unless paused. */
  function ResultsHandled(v: Voice, matches: Option<seq<string>>, confidences: Option<seq<real>>,
                          scoreOf: string -> Option<real>, threshold: real, now: int): Voice {
    match matches
    case None => v
    case Some(texts) =>
      match FirstAccepted(texts, DangerTest(CustomDangerPhrase(v.prefs), SpeechConfidence(confidences),
                                            UserVoiceprint(v.prefs), scoreOf, threshold))
      case Some(i) => PhraseDetected(v, texts[i], now)
      case None => SpeechEnded(v)
  }

  /** `onPartialResults`: the same scan at the threshold confidence, and never a restart. */
  function PartialResultsHandled(v: Voice, matches: Option<seq<string>>,
                                 scoreOf: string -> Option<real>, threshold: real, now: int): Voice {
    match matches
    case None => v
    case Some(texts) =>
      match FirstAccepted(texts, DangerTest(CustomDangerPhrase(v.prefs), threshold, UserVoiceprint(v.prefs), scoreOf, threshold))
      case Some(i) => PhraseDetected(v, texts[i], now)
      case None => v
  }

  // ---------------------------------------------------------------------
  // Properties

  /** A batch of results launches at most one SOS, and a detection skips the restart. */
  lemma ResultsAtMostOne(v: Voice, matches: Option<seq<string>>, confidences: Option<seq<real>>,
                         scoreOf: string -> Option<real>, threshold: real, now: int)
    ensures var r := ResultsHandled(v, matches, confidences, scoreOf, threshold, now);
      && |r.detections| <= |v.detections| + 1
      && r.detections[..|v.detections|] == v.detections
      && (|r.detections| > |v.detections| ==> r.isRestarting == v.isRestarting)
      && (matches.Some? && |r.detections| == |v.detections| && !v.isPaused ==> r.isRestarting)
  {
  }

  /** Results without a list return before the restart. */
  lemma NoMatchesNoRestart(v: Voice, confidences: Option<seq<real>>, scoreOf: string -> Option<real>,
                           threshold: real, now: int)
    ensures ResultsHandled(v, None, confidences, scoreOf, threshold, now) == v
  {
  }

  /** While a restart is pending, scheduling another does nothing; firing twice starts once. */
  lemma OnePendingRestart(v: Voice, g1: bool, g2: bool)
    ensures v.isRestarting ==> RestartScheduled(v) == v
    ensures RestartScheduled(RestartScheduled(v)) == RestartScheduled(v)
    ensures RestartFired(RestartFired(v, g1), g2) == RestartFired(v, g1)
    ensures RestartFired(v, g1).listeningStarts <= v.listeningStarts + 1
  {
  }

  lemma DisabledNeverListens(v: Voice, audioGranted: bool)
    requires !IsVoiceGuardEnabled(v.prefs)
    ensures ListeningStarted(v, audioGranted) == v
    ensures RestartFired(v, audioGranted).listeningStarts == v.listeningStarts
  {
  }

  lemma StopEffect(v: Voice, audioGranted: bool)
    ensures ListeningStopped(v).isPaused && VoiceServiceStatus(ListeningStopped(v).prefs) == "stopped"
    ensures var (r, mode) := VoiceCommanded(v, Some(ACTION_STOP_VOICE), audioGranted);
      mode == NotSticky && r.isPaused && r.selfStopped && r.listeningStarts == v.listeningStarts
  {
  }

  /** Once paused, nothing starts the recogniser again. */
  lemma PausedStaysQuiet(v: Voice, action: Option<string>, audioGranted: bool)
    requires v.isPaused
    ensures VoiceCommanded(v, action, audioGranted).0.listeningStarts == v.listeningStarts
    ensures VoiceCommanded(v, action, audioGranted).1 == (if action == Some(ACTION_STOP_VOICE) then NotSticky else Sticky)
    ensures SpeechEnded(v) == v
    ensures RestartFired(v, audioGranted).listeningStarts == v.listeningStarts
  {
  }

  // ---------------------------------------------------------------------
  // The service object

  class VoiceListenerService {
    const prefs: SharedPreferencesManager
    var isPaused: bool
    var isRestarting: bool
    var listeningStarts: nat
    var detections: seq<string>
    var selfStopped: bool

    function Abs(): Voice
      reads this, prefs
    {
      Voice(prefs.store, isPaused, isRestarting, listeningStarts, detections, selfStopped)
    }

    /** `onCreate()` */
    constructor (p: SharedPreferencesManager)
      ensures prefs == p && Abs() == Voice(p.store, false, false, 0, [], false)
    {
      prefs := p;
      isPaused := false;
      isRestarting := false;
      listeningStarts := 0;
      detections := [];
      selfStopped := false;
    }

    method OnStartCommand(action: Option<string>, audioGranted: bool) returns (mode: StartMode)
      modifies this, prefs
      ensures (Abs(), mode) == VoiceCommanded(old(Abs()), action, audioGranted)
    {
      if action == Some(ACTION_STOP_VOICE) {
        StopListening();
        selfStopped := true;
        return NotSticky;
      }
      if !isPaused {
        StartListening(audioGranted);
      }
      return Sticky;
    }

    method StartListening(audioGranted: bool)
      modifies this, prefs
      ensures Abs() == ListeningStarted(old(Abs()), audioGranted)
    {
      if !IsVoiceGuardEnabled(prefs.store) {
        return;
      }
      if !audioGranted {
        prefs.SetVoiceServiceStatus(STATUS_STOPPED);
        selfStopped := true;
        return;
      }
      prefs.SetVoiceServiceStatus(STATUS_LISTENING);
      listeningStarts := listeningStarts + 1;
    }

    method ScheduleRestart()
      modifies this
      ensures Abs() == RestartScheduled(old(Abs()))
    {
      if isRestarting {
        return;
      }
      isRestarting := true;
    }

    /** The delayed restart posted by `scheduleRestart` runs. */
    method OnRestartDelayElapsed(audioGranted: bool)
      modifies this, prefs
      ensures Abs() == RestartFired(old(Abs()), audioGranted)
    {
      if !isRestarting {
        return;
      }
      isRestarting := false;
      if !isPaused && IsVoiceGuardEnabled(prefs.store) {
        StartListening(audioGranted);
      }
    }

    /** `onEndOfSpeech()` and `onError(…)` */
    method OnSpeechEnded()
      modifies this
      ensures Abs() == SpeechEnded(old(Abs()))
    {
      if !isPaused {
        ScheduleRestart();
      }
    }

    method StopListening()
      modifies this, prefs
      ensures Abs() == ListeningStopped(old(Abs()))
    {
      isPaused := true;
      prefs.SetVoiceServiceStatus(STATUS_STOPPED);
    }

    method OnPhraseDetected(text: string, now: int)
      modifies this, prefs
      ensures Abs() == PhraseDetected(old(Abs()), text, now)
    {
      prefs.SetLastDetectionTime(now);
      detections := detections + [text];
    }

    /**
     * `onResults`: each alternative in turn goes through `checkDangerPhrase`;
     * the first that passes launches the SOS and ends the handler.
     */
    method OnResults(matches: Option<seq<string>>, confidences: Option<seq<real>>,
                     scoreOf: string -> Option<real>, threshold: real, now: int)
      modifies this, prefs
      ensures Abs() == ResultsHandled(old(Abs()), matches, confidences, scoreOf, threshold, now)
    {
      if matches.None? {
        return;
      }
      var texts := matches.value;
      var confidence := SpeechConfidence(confidences);
      var check := DangerTest(CustomDangerPhrase(prefs.store), confidence, UserVoiceprint(prefs.store), scoreOf, threshold);
      var found := FirstMatch(texts, check);
      if found.Some? {
        OnPhraseDetected(texts[found.value], now);
        return;
      }
      if !isPaused {
        ScheduleRestart();
      }
    }

    /** `onPartialResults`: the same scan at the threshold confidence, with no restart. */
    method OnPartialResults(matches: Option<seq<string>>, scoreOf: string -> Option<real>, threshold: real, now: int)
      modifies this, prefs
      ensures Abs() == PartialResultsHandled(old(Abs()), matches, scoreOf, threshold, now)
    {
      if matches.None? {
        return;
      }
      var texts := matches.value;
      var check := DangerTest(CustomDangerPhrase(prefs.store), threshold, UserVoiceprint(prefs.store), scoreOf, threshold);
      var found := FirstMatch(texts, check);
      if found.Some? {
        OnPhraseDetected(texts[found.value], now);
      }
    }

    method OnDestroy()
      modifies this, prefs
      ensures Abs() == ListeningStopped(old(Abs()))
    {
      StopListening();
    }
  }
}
