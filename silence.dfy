/**
 * The silence detector that runs once the assistant has asked to end the
 * call: each tick averages the analyser's frequency bytes, opens a silence
 * window on the first quiet reading, closes it on a loud one, and signals
 * termination once a window has lasted more than one second.
 */
module Silence {
  import opened Wrappers

  /** One frequency bin of `getByteFrequencyData` (a `Uint8Array` entry). */
  type Byte = b: int | 0 <= b < 256

  /** Average level below which a reading counts as silence. */
  const Threshold := 10

  /** Milliseconds a silence window must exceed before the call is ended. */
  const SilenceBoundMs := 1000

  function Sum(s: seq<Byte>): int
    decreases |s|
  {
    if |s| == 0 then 0 else Sum(s[..|s| - 1]) + s[|s| - 1]
  }

  /**
   * The reading's average is below the threshold, compared without division.
   * An empty reading averages to NaN in the source, and NaN < 10 is false,
   * so it is not quiet.
   */
  predicate Quiet(samples: seq<Byte>) {
    |samples| > 0 && Sum(samples) < Threshold * |samples|
  }

  /** The integer comparison is the source's comparison of the average with 10. */
  lemma QuietIsAverageBelowThreshold(samples: seq<Byte>)
    ensures Quiet(samples) <==>
              |samples| > 0 && (Sum(samples) as real) / (|samples| as real) < Threshold as real
  {
    if |samples| > 0 {
      var n := |samples| as real;
      var avg := (Sum(samples) as real) / n;
      assert avg * n == Sum(samples) as real;
      if avg < Threshold as real {
        assert avg * n < (Threshold as real) * n;
      } else {
        assert avg * n >= (Threshold as real) * n;
      }
    }
  }

  /** The summing loop of `checkSilence`. */
  method MeasureQuiet(samples: seq<Byte>) returns (quiet: bool)
    ensures quiet == Quiet(samples)
  {
    var sum := 0;
    var i := 0;
    while i < |samples|
      invariant 0 <= i <= |samples|
      invariant sum == Sum(samples[..i])
    {
      assert samples[..i + 1][..i] == samples[..i];
      sum := sum + samples[i];
      i := i + 1;
    }
    assert samples[..i] == samples;
    quiet := |samples| > 0 && sum < Threshold * |samples|;
  }

  /** What a tick does next: stop without rescheduling, reschedule, or end the call. */
  datatype TickAction = Halt | Reschedule | Stop

  /** The silence window after a tick, and the tick's action. */
  datatype Tick = Tick(silenceStart: Option<int>, action: TickAction)

  /**
   * One tick of `checkSilence`. `armed` is "the call is active, there is an
   * analyser and a disconnect was requested"; `now` is the clock reading.
   */
  function SilenceStep(armed: bool, silenceStart: Option<int>, samples: seq<Byte>, now: int): (t: Tick)
    ensures t.action == Halt <==> !armed
    ensures t.action == Stop <==>
              armed && Quiet(samples) && silenceStart.Some? && now - silenceStart.value > SilenceBoundMs
    ensures armed && !Quiet(samples) ==> t.silenceStart == None
    ensures armed && Quiet(samples) ==> t.silenceStart == if silenceStart.None? then Some(now) else silenceStart
    ensures !armed ==> t.silenceStart == silenceStart
  {
    if !armed then Tick(silenceStart, Halt)
    else if Quiet(samples) then
      if silenceStart.None? then Tick(Some(now), Reschedule)
      else if now - silenceStart.value > SilenceBoundMs then Tick(silenceStart, Stop)
      else Tick(silenceStart, Reschedule)
    else Tick(None, Reschedule)
  }

  /** One analyser reading and the clock at that tick. */
  datatype Frame = Frame(samples: seq<Byte>, now: int)

  /** The silence window after a run of armed ticks over `fs`, starting from `w`. */
  function WindowAfter(w: Option<int>, fs: seq<Frame>): Option<int>
    decreases |fs|
  {
    if |fs| == 0 then w
    else SilenceStep(true, WindowAfter(w, fs[..|fs| - 1]), fs[|fs| - 1].samples, fs[|fs| - 1].now).silenceStart
  }

  /** Index where the longest run of quiet frames at the end of `fs` begins (|fs| if the last frame is loud). */
  function QuietRunStart(fs: seq<Frame>): (p: nat)
    ensures p <= |fs|
    ensures forall j :: p <= j < |fs| ==> Quiet(fs[j].samples)
    ensures p > 0 ==> !Quiet(fs[p - 1].samples)
    decreases |fs|
  {
    if |fs| == 0 then 0
    else if Quiet(fs[|fs| - 1].samples) then QuietRunStart(fs[..|fs| - 1])
    else |fs|
  }

  /**
   * Starting from no window (the value a new call starts with), the window is
   * open exactly when the latest frames are quiet, and it opened at the first
   * frame of that quiet run: any loud frame resets it.
   */
  lemma {:induction false} WindowIsQuietRun(fs: seq<Frame>)
    ensures WindowAfter(None, fs) == if QuietRunStart(fs) < |fs| then Some(fs[QuietRunStart(fs)].now) else None
    decreases |fs|
  {
    if |fs| > 0 {
      var init := fs[..|fs| - 1];
      WindowIsQuietRun(init);
      if Quiet(fs[|fs| - 1].samples) && QuietRunStart(init) < |init| {
        assert fs[QuietRunStart(init)] == init[QuietRunStart(init)];
      }
    }
  }

  /** The action of the tick at frame `k` of an armed run that started with no window. */
  function ActionAt(fs: seq<Frame>, k: nat): TickAction
    requires k < |fs|
  {
    SilenceStep(true, WindowAfter(None, fs[..k]), fs[k].samples, fs[k].now).action
  }

  /**
   * A tick ends the call exactly when its frame and the frames before it back
   * to the last loud one are quiet, the quiet run began at an earlier tick,
   * and more than one second separates that tick from this one.
   */
  lemma StopIffSustainedSilence(fs: seq<Frame>, k: nat)
    requires k < |fs|
    ensures var p := QuietRunStart(fs[..k]);
            ActionAt(fs, k) == Stop <==>
              && Quiet(fs[k].samples)
              && p < k
              && fs[k].now - fs[p].now > SilenceBoundMs
  {
    WindowIsQuietRun(fs[..k]);
  }

  /** A quiet run that lasts more than one second ends the call at the latest at its last tick. */
  lemma SustainedSilenceStops(fs: seq<Frame>, p: nat, k: nat)
    requires p < k < |fs|
    requires p > 0 ==> !Quiet(fs[p - 1].samples)
    requires forall j :: p <= j <= k ==> Quiet(fs[j].samples)
    requires fs[k].now - fs[p].now > SilenceBoundMs
    ensures ActionAt(fs, k) == Stop
  {
    QuietRunStartOfRun(fs[..k], p);
    StopIffSustainedSilence(fs, k);
  }

  lemma {:induction false} QuietRunStartOfRun(fs: seq<Frame>, p: nat)
    requires p < |fs|
    requires p > 0 ==> !Quiet(fs[p - 1].samples)
    requires forall j :: p <= j < |fs| ==> Quiet(fs[j].samples)
    ensures QuietRunStart(fs) == p
    decreases |fs|
  {
    if |fs| - 1 > p {
      QuietRunStartOfRun(fs[..|fs| - 1], p);
    } else if p > 0 {
      assert fs[..|fs| - 1][p - 1] == fs[p - 1];
    }
  }
}
