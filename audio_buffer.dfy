/**
 * `AudioBufferManager`: the silence detector of the voice guard. A buffer is
 * either silent or not (the decibel comparison that decides it is an input);
 * a silent stretch that lasts `silenceDurationMs` fires `onSilenceDetected`
 * once and starts a fresh window. The wall clock is the parameter `now`.
 */
module SilenceDetector {

  /** A 16-bit PCM sample (`Short`). */
  newtype short = x: int | -32768 <= x < 32768

  /** The detector's two fields, and how many times `onSilenceDetected` has run. */
  datatype Detector = Detector(silenceStartTime: int, isInSilencePeriod: bool, silenceEvents: nat)

  const InitialDetector := Detector(0, false, 0)

  /** `processBuffer` on a buffer that is `silent` or not, at time `now`. */
  function Processed(d: Detector, silent: bool, now: int, silenceDurationMs: int): (Detector, bool) {
    if silent then
      var d1 := if !d.isInSilencePeriod then d.(silenceStartTime := now, isInSilencePeriod := true) else d;
      if now - d1.silenceStartTime >= silenceDurationMs then
        (d1.(isInSilencePeriod := false, silenceEvents := d1.silenceEvents + 1), true)
      else (d1, false)
    else (d.(isInSilencePeriod := false), false)
  }

  /** `reset()` */
  function ResetDetector(d: Detector): Detector {
    d.(isInSilencePeriod := false)
  }

  // ---------------------------------------------------------------------
  // One buffer

  lemma NoiseClears(d: Detector, now: int, duration: int)
    ensures var (r, fired) := Processed(d, false, now, duration);
      !fired && !r.isInSilencePeriod && r.silenceStartTime == d.silenceStartTime && r.silenceEvents == d.silenceEvents
  {
  }

  /** Only the first silent buffer of a stretch records the start time. */
  lemma SilenceStart(d: Detector, now: int, duration: int)
    ensures var (r, fired) := Processed(d, true, now, duration);
      r.silenceStartTime == if d.isInSilencePeriod then d.silenceStartTime else now
  {
  }

  /** The detector fires exactly when a silent buffer comes `duration` after the stretch began. */
  lemma FiresIff(d: Detector, silent: bool, now: int, duration: int)
    ensures var (r, fired) := Processed(d, silent, now, duration);
      var start := if d.isInSilencePeriod then d.silenceStartTime else now;
      && (fired <==> silent && now - start >= duration)
      && (fired ==> !r.isInSilencePeriod && r.silenceEvents == d.silenceEvents + 1)
      && (!fired ==> r.silenceEvents == d.silenceEvents && r.isInSilencePeriod == silent)
  {
  }

  /** With a positive duration the first silent buffer never fires. */
  lemma FirstSilentBufferWaits(d: Detector, now: int, duration: int)
    requires !d.isInSilencePeriod && duration > 0
    ensures !Processed(d, true, now, duration).1
  {
  }

  lemma ResetEffect(d: Detector)
    ensures !ResetDetector(d).isInSilencePeriod
    ensures ResetDetector(d).silenceStartTime == d.silenceStartTime && ResetDetector(d).silenceEvents == d.silenceEvents
  {
  }

  // ---------------------------------------------------------------------
  // Streams of buffers

  datatype Event = Buffer(silent: bool, now: int) | ResetCall

  function StepEvent(d: Detector, e: Event, duration: int): (Detector, bool) {
    match e
    case Buffer(silent, now) => Processed(d, silent, now, duration)
    case ResetCall => (ResetDetector(d), false)
  }

  /** The detector after `es`, with one answer per event (`reset` answers false). */
  function RunEvents(d: Detector, es: seq<Event>, duration: int): (r: (Detector, seq<bool>))
    ensures |r.1| == |es|
  {
    if es == [] then (d, [])
    else
      var (d1, fs) := RunEvents(d, es[..|es| - 1], duration);
      var (d2, f) := StepEvent(d1, es[|es| - 1], duration);
      (d2, fs + [f])
  }

  /** `es[j..k]` are all silent buffers. */
  predicate SilentRun(es: seq<Event>, j: int, k: int) {
    0 <= j <= k <= |es| && forall t :: j <= t < k ==> es[t].Buffer? && es[t].silent
  }

  /** While in a silence period, its start is the time of the first buffer of the current silent run. */
  predicate Tracks(d: Detector, es: seq<Event>) {
    d.isInSilencePeriod ==> exists j :: 0 <= j < |es| && SilentRun(es, j, |es|) && es[j].now == d.silenceStartTime
  }

  /** A fire at `i` closes a silent run of at least `duration`. */
  predicate Justified(es: seq<Event>, i: int, duration: int)
    requires 0 <= i < |es| && es[i].Buffer?
  {
    exists j :: 0 <= j <= i && SilentRun(es, j, i + 1) && es[i].now - es[j].now >= duration
  }

  lemma SilentRunExtend(es: seq<Event>, e: Event, j: int)
    requires SilentRun(es, j, |es|) && e.Buffer? && e.silent
    ensures SilentRun(es + [e], j, |es| + 1)
  {
    var es' := es + [e];
    forall t | j <= t < |es'| ensures es'[t].Buffer? && es'[t].silent {
      if t < |es| { assert es'[t] == es[t]; }
    }
  }

  lemma JustifiedExtend(es: seq<Event>, e: Event, i: int, duration: int)
    requires 0 <= i < |es| && es[i].Buffer? && Justified(es, i, duration)
    ensures (es + [e])[i] == es[i] && Justified(es + [e], i, duration)
  {
    var es' := es + [e];
    var j :| 0 <= j <= i && SilentRun(es, j, i + 1) && es[i].now - es[j].now >= duration;
    assert es'[j] == es[j] && es'[i] == es[i];
    assert SilentRun(es', j, i + 1) by {
      forall t | j <= t < i + 1 ensures es'[t].Buffer? && es'[t].silent {
        assert es'[t] == es[t];
      }
    }
  }

  /** One event keeps `Tracks`, and a fire it produces is justified. */
  lemma StepTracks(d: Detector, es: seq<Event>, e: Event, duration: int)
    requires Tracks(d, es)
    ensures Tracks(StepEvent(d, e, duration).0, es + [e])
    ensures StepEvent(d, e, duration).1 ==> e.Buffer? && Justified(es + [e], |es|, duration)
  {
    var es' := es + [e];
    assert es'[|es|] == e;
    match e
    case ResetCall =>
    case Buffer(silent, now) =>
      if silent {
        var j: int;
        if d.isInSilencePeriod {
          j :| 0 <= j < |es| && SilentRun(es, j, |es|) && es[j].now == d.silenceStartTime;
          assert es'[j] == es[j];
        } else {
          j := |es|;
        }
        SilentRunExtend(es, e, j);
        var (r, fired) := StepEvent(d, e, duration);
        assert r.isInSilencePeriod ==> es'[j].now == r.silenceStartTime;
        assert fired ==> es'[|es|].now - es'[j].now >= duration;
      }
  }

  /**
   * From the initial detector, every `true` answer comes at the end of an
   * uninterrupted run of silent buffers (no noise, no `reset`) spanning at
   * least `duration`.
   */
  lemma {:induction false} FiresOnlyAfterSilence(es: seq<Event>, duration: int)
    ensures Tracks(RunEvents(InitialDetector, es, duration).0, es)
    ensures forall i :: 0 <= i < |es| && RunEvents(InitialDetector, es, duration).1[i] ==>
      es[i].Buffer? && Justified(es, i, duration)
  {
    if es != [] {
      var pre := es[..|es| - 1];
      var e := es[|es| - 1];
      assert es == pre + [e];
      FiresOnlyAfterSilence(pre, duration);
      var (d1, fs) := RunEvents(InitialDetector, pre, duration);
      StepTracks(d1, pre, e, duration);
      var fs' := RunEvents(InitialDetector, es, duration).1;
      forall i | 0 <= i < |es| && fs'[i] ensures es[i].Buffer? && Justified(es, i, duration) {
        if i < |pre| {
          assert fs'[i] == fs[i];
          JustifiedExtend(pre, e, i, duration);
        }
      }
    }
  }

  /** The silence count is the number of `true` answers. */
  lemma {:induction false} EventsCounted(d: Detector, es: seq<Event>, duration: int)
    ensures RunEvents(d, es, duration).0.silenceEvents == d.silenceEvents + CountTrue(RunEvents(d, es, duration).1)
  {
    if es != [] {
      EventsCounted(d, es[..|es| - 1], duration);
      var fs := RunEvents(d, es[..|es| - 1], duration).1;
      var f := RunEvents(d, es, duration).1[|es| - 1];
      CountTrueSnoc(fs, f);
    }
  }

  function CountTrue(bs: seq<bool>): nat {
    if bs == [] then 0 else (if bs[0] then 1 else 0) + CountTrue(bs[1..])
  }

  lemma {:induction false} CountTrueSnoc(bs: seq<bool>, b: bool)
    ensures CountTrue(bs + [b]) == CountTrue(bs) + (if b then 1 else 0)
  {
    if bs == [] {
      assert [b][1..] == [];
    } else {
      assert (bs + [b])[1..] == bs[1..] + [b];
      CountTrueSnoc(bs[1..], b);
    }
  }

  // ---------------------------------------------------------------------
  // Signal level

  /** Sum of the squared normalised samples, `(s / 32768)^2`. */
  function SumSquares(samples: seq<short>): real {
    if samples == [] then 0.0
    else
      var n := samples[|samples| - 1] as real / 32768.0;
      SumSquares(samples[..|samples| - 1]) + n * n
  }

  /** The square of `computeRms`: the mean of the squared normalised samples, 0 when empty. */
  function MeanSquare(samples: seq<short>): real {
    if samples == [] then 0.0 else SumSquares(samples) / |samples| as real
  }

  lemma SquareBound(s: short)
    ensures 0.0 <= (s as real / 32768.0) * (s as real / 32768.0) <= 1.0
  {
    var n := s as real / 32768.0;
    assert -1.0 <= n < 1.0;
    if n >= 0.0 {
      assert n * n <= n * 1.0;
    } else {
      assert n * n <= (-n) * 1.0;
    }
  }

  lemma {:induction false} SumSquaresBound(samples: seq<short>)
    ensures 0.0 <= SumSquares(samples) <= |samples| as real
  {
    if samples != [] {
      SumSquaresBound(samples[..|samples| - 1]);
      SquareBound(samples[|samples| - 1]);
    }
  }

  /** The level is between 0 and full scale. */
  lemma MeanSquareBound(samples: seq<short>)
    ensures 0.0 <= MeanSquare(samples) <= 1.0
  {
    if samples != [] {
      SumSquaresBound(samples);
      var n := |samples| as real;
      assert SumSquares(samples) / n <= n / n;
    }
  }

  /** A buffer of zeros has level 0. */
  lemma {:induction false} ZerosAreSilent(samples: seq<short>)
    requires forall i :: 0 <= i < |samples| ==> samples[i] == 0
    ensures SumSquares(samples) == 0.0 && MeanSquare(samples) == 0.0
  {
    if samples != [] {
      ZerosAreSilent(samples[..|samples| - 1]);
    }
  }

  // ---------------------------------------------------------------------
  // The manager object

  class AudioBufferManager {
    var silenceStartTime: int
    var isInSilencePeriod: bool
    var silenceEvents: nat
    const silenceDurationMs: int

    function Abs(): Detector
      reads this
    {
      Detector(silenceStartTime, isInSilencePeriod, silenceEvents)
    }

    constructor (durationMs: int)
      ensures Abs() == InitialDetector && silenceDurationMs == durationMs
    {
      silenceStartTime := 0;
      isInSilencePeriod := false;
      silenceEvents := 0;
      silenceDurationMs := durationMs;
    }

    method ProcessBuffer(silent: bool, now: int) returns (fired: bool)
      modifies this
      ensures (Abs(), fired) == Processed(old(Abs()), silent, now, silenceDurationMs)
    {
      if silent {
        if !isInSilencePeriod {
          silenceStartTime := now;
          isInSilencePeriod := true;
        }
        var elapsed := now - silenceStartTime;
        if elapsed >= silenceDurationMs {
          isInSilencePeriod := false;
          silenceEvents := silenceEvents + 1;
          fired := true;
        } else {
          fired := false;
        }
      } else {
        isInSilencePeriod := false;
        fired := false;
      }
    }

    /** The accumulator loop of `computeRms`, without the final square root. */
    method ComputeMeanSquare(samples: array<short>) returns (ms: real)
      ensures ms == MeanSquare(samples[..])
      ensures 0.0 <= ms <= 1.0
    {
      if samples.Length == 0 {
        return 0.0;
      }
      var sum := 0.0;
      var i := 0;
      while i < samples.Length
        invariant 0 <= i <= samples.Length
        invariant sum == SumSquares(samples[..i])
      {
        var n := samples[i] as real / 32768.0;
        assert samples[..i + 1][..i] == samples[..i];
        sum := sum + n * n;
        i := i + 1;
      }
      assert samples[..samples.Length] == samples[..];
      ms := sum / samples.Length as real;
      MeanSquareBound(samples[..]);
    }

    method Reset()
      modifies this
      ensures Abs() == ResetDetector(old(Abs()))
    {
      isInSilencePeriod := false;
    }
  }
}
