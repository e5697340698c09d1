/**
 The capture loop: bytes from the recorder in arbitrary chunks become samples,
 loudness readings and at most one stop event.

 `Captured` says in one pass over the whole byte stream what the loop does chunk by
 chunk: decode pairs, drop the lead-in, apply the gain, and cut at the first stop.
 Loudness is kept squared, so no square root is taken.
 */
module Audio {
  import opened Common
  import opened Bytes

  datatype Config = Config(
    rate: nat,
    rmsIntervalMs: nat,
    silenceTimeoutMs: nat,
    silenceThreshold: real,
    maxClipSecs: real,
    minClipMs: nat,
    gain: real)
  {
    function RmsWindow(): nat
      ensures RmsWindow() >= 1
    {
      var n := rate * rmsIntervalMs / 1000;
      if n >= 1 then n else 1
    }

    function SilenceWindows(): (w: Option<nat>)
      ensures w.Some? <==> silenceTimeoutMs != 0
      ensures w.Some? ==> w.value >= 1
    {
      if silenceTimeoutMs == 0 then None
      else
        var ms := if rmsIntervalMs >= 1 then rmsIntervalMs else 1;
        Some(CeilDiv(silenceTimeoutMs, ms))
    }

    /** A negative or zero limit saturates to no samples. */
    function MaxSamples(): nat {
      var n := (rate as real * maxClipSecs).Floor;
      if n >= 0 then n else 0
    }

    function MinSamples(): nat {
      rate * minClipMs / 1000
    }

    /** The stream-start transient: 50 ms. */
    function SkipSamples(): nat {
      rate * 50 / 1000
    }
  }

  function CeilDiv(a: nat, b: nat): (r: nat)
    requires b >= 1 && a >= 1
    ensures r >= 1 && r * b >= a && (r - 1) * b < a
  {
    CeilDivBounds(a, b);
    (a + b - 1) / b
  }

  lemma CeilDivBounds(a: nat, b: nat)
    requires b >= 1 && a >= 1
    ensures var r := (a + b - 1) / b; r >= 1 && r * b >= a && (r - 1) * b < a
  {
    var r := (a + b - 1) / b;
    assert a + b - 1 == r * b + (a + b - 1) % b;
    assert (r - 1) * b == r * b - b;
  }

  // ------------------------------------------------------------------
  // Samples
  // ------------------------------------------------------------------

  newtype i16 = x: int | -0x8000 <= x < 0x8000

  function Decode(lo: byte, hi: byte): i16 {
    var v := lo as int + 256 * hi as int;
    (if v >= 0x8000 then v - 0x1_0000 else v) as i16
  }

  /** To the nearest integer, halves away from zero. */
  function Round(x: real): int {
    if x >= 0.0 then (x + 0.5).Floor else -((-x + 0.5).Floor)
  }

  /** Nothing is nearer, halves go away from zero, and the sign does not matter. */
  lemma RoundIsNearest(x: real)
    ensures -0.5 <= Round(x) as real - x <= 0.5 && Round(-x) == -Round(x)
    ensures Round(x) as real - x == -0.5 ==> x < 0.0
    ensures Round(x) as real - x == 0.5 ==> x > 0.0
  {
  }

  /** The counts of samples in time: a window (of one sample at least), the length limit, the shortest clip, 50 ms. */
  lemma CountsAre(cfg: Config)
    ensures var w := cfg.RmsWindow();
            (w == 1 && cfg.rate * cfg.rmsIntervalMs < 1000) || w * 1000 <= cfg.rate * cfg.rmsIntervalMs < (w + 1) * 1000
    ensures var n, limit := cfg.MaxSamples() as real, cfg.rate as real * cfg.maxClipSecs;
            (n == 0.0 && limit < 0.0) || n <= limit < n + 1.0
    ensures cfg.MinSamples() * 1000 <= cfg.rate * cfg.minClipMs < (cfg.MinSamples() + 1) * 1000
    ensures cfg.SkipSamples() * 1000 <= cfg.rate * 50 < (cfg.SkipSamples() + 1) * 1000
  {
  }

  /** There is a timeout unless it is 0, and the fewest windows that last it are its count. */
  lemma TimeoutIs(cfg: Config)
    ensures match cfg.SilenceWindows()
            case None => cfg.silenceTimeoutMs == 0
            case Some(w) =>
              var ms := if cfg.rmsIntervalMs == 0 then 1 else cfg.rmsIntervalMs;
              cfg.silenceTimeoutMs != 0 && w >= 1 && (w - 1) * ms < cfg.silenceTimeoutMs <= w * ms
  {
  }

  /** A gain gives the nearest sample to the product, or the outermost where there is none. */
  lemma GainIs(sample: i16, gain: real)
    ensures var x, r := sample as real * gain, ApplyGain(sample, gain) as real;
            && (-32768.0 <= x <= 32767.0 ==> -0.5 <= r - x <= 0.5)
            && (x > 32767.0 ==> r == 32767.0) && (x < -32768.0 ==> r == -32768.0)
  {
    RoundIsNearest(sample as real * gain);
  }

  /** Two bytes are a little-endian two's complement sample. */
  lemma DecodeIs(lo: byte, hi: byte)
    ensures Decode(lo, hi) as int % 0x1_0000 == lo as int + 256 * hi as int
    ensures Decode(lo, hi) < 0 <==> hi >= 128
  {
  }

  function Clamp(x: int): i16 {
    if x < -0x8000 then -0x8000 else if x > 0x7FFF then 0x7FFF else x as i16
  }

  function ApplyGain(sample: i16, gain: real): i16 {
    if gain == 1.0 then sample else Clamp(Round(sample as real * gain))
  }

  /** The samples a byte stream holds, past the lead-in, with the gain applied. */
  function Samples(cfg: Config, bytes: Bytes): seq<i16> {
    var pairs, skip := |bytes| / 2, cfg.SkipSamples();
    seq(if pairs > skip then pairs - skip else 0,
        i requires 0 <= i && i + skip < pairs => ApplyGain(Decode(bytes[2 * (i + skip)], bytes[2 * (i + skip) + 1]), cfg.gain))
  }

  // ------------------------------------------------------------------
  // Loudness
  // ------------------------------------------------------------------

  function Square(sample: i16): real {
    var norm := sample as real / 32768.0;
    norm * norm
  }

  function Energy(s: seq<i16>): real {
    if s == [] then 0.0 else Energy(s[..|s| - 1]) + Square(s[|s| - 1])
  }

  /** The reading for a window of energy `e`: its RMS, squared, kept within [0, 1]. */
  function Reading(e: real, count: nat): real
    requires count >= 1
  {
    var mean := e / (count as real);
    if mean < 0.0 then 0.0 else if mean > 1.0 then 1.0 else mean
  }

  /** Whether a reading is above the silence threshold. */
  predicate Loud(cfg: Config, reading: real) {
    cfg.silenceThreshold < 0.0 || reading > cfg.silenceThreshold * cfg.silenceThreshold
  }

  function Window(cfg: Config, s: seq<i16>, k: nat): seq<i16>
    requires (k + 1) * cfg.RmsWindow() <= |s|
  {
    s[k * cfg.RmsWindow()..(k + 1) * cfg.RmsWindow()]
  }

  function WindowReading(cfg: Config, s: seq<i16>, k: nat): real
    requires (k + 1) * cfg.RmsWindow() <= |s|
  {
    Reading(Energy(Window(cfg, s, k)), cfg.RmsWindow())
  }

  lemma WithinWindows(w: nat, i: nat, k: nat, n: nat)
    requires i < k && k * w <= n
    ensures (i + 1) * w <= n
  {
    assert (k - (i + 1)) * w >= 0;
    assert k * w == (i + 1) * w + (k - (i + 1)) * w;
  }

  /** The readings of the first `k` complete windows. */
  function Readings(cfg: Config, s: seq<i16>, k: nat): (r: seq<real>)
    requires k * cfg.RmsWindow() <= |s|
    ensures |r| == k
  {
    if k == 0 then [] else
      WithinWindows(cfg.RmsWindow(), k - 1, k, |s|);
      Readings(cfg, s, k - 1) + [WindowReading(cfg, s, k - 1)]
  }

  // ------------------------------------------------------------------
  // Where the capture stops
  // ------------------------------------------------------------------

  /** The last `limit` readings are silent, and there was speech before them. */
  ghost predicate TrailingSilence(cfg: Config, readings: seq<real>) {
    match cfg.SilenceWindows()
    case None => false
    case Some(limit) =>
      && limit <= |readings|
      && (forall j :: |readings| - limit <= j < |readings| ==> !Loud(cfg, readings[j]))
      && (exists j :: 0 <= j < |readings| - limit && Loud(cfg, readings[j]))
  }

  /** Sample number `n` completes the window that ends the capture on silence. */
  ghost predicate SilenceAt(cfg: Config, s: seq<i16>, n: nat)
    requires n <= |s|
  {
    exists k: nat :: n == k * cfg.RmsWindow() && TrailingSilence(cfg, Readings(cfg, s, k))
  }

  ghost predicate StopsAt(cfg: Config, s: seq<i16>, n: nat)
    requires n <= |s|
  {
    n >= 1 && (SilenceAt(cfg, s, n) || n >= cfg.MaxSamples())
  }

  datatype End = StreamEnded | TooLong | Silence

  datatype Capture = Capture(samples: seq<i16>, readings: seq<real>, end: End, speechHeard: bool)

  /** What a capture of the byte stream must be: everything up to the first stop. */
  ghost predicate Captured(cfg: Config, bytes: Bytes, c: Capture) {
    var s, n := Samples(cfg, bytes), |c.samples|;
    && n <= |s| && c.samples == s[..n]
    && (forall m: nat :: m < n ==> !StopsAt(cfg, s, m))
    && (c.end == StreamEnded ==> n == |s|)
    && (c.end != StreamEnded <==> StopsAt(cfg, s, n))
    && (c.end == Silence <==> n >= 1 && SilenceAt(cfg, s, n))
    && |c.readings| * cfg.RmsWindow() <= n < (|c.readings| + 1) * cfg.RmsWindow()
    && c.readings == Readings(cfg, s, |c.readings|)
    && (c.speechHeard <==> exists j :: 0 <= j < |c.readings| && Loud(cfg, c.readings[j]))
  }

  // ------------------------------------------------------------------
  // Reading in chunks
  // ------------------------------------------------------------------

  /** What one turn of the loop meets: the stop flag, or the outcome of a read. */
  datatype Event = StopRequested | EndOfFile | ReadFailed | Interrupted | Data(bytes: Bytes)

  /** All bytes read before the loop has to end. */
  function Delivered(events: seq<Event>): Bytes {
    if events == [] then []
    else
      match events[0]
      case Data(bytes) => bytes + Delivered(events[1..])
      case Interrupted => Delivered(events[1..])
      case _ => []
  }

  /** `speech` says whether any reading was loud, `silent` how many since the last loud one. */
  ghost predicate Counted(cfg: Config, readings: seq<real>, speech: bool, silent: nat) {
    && (speech <==> exists j :: 0 <= j < |readings| && Loud(cfg, readings[j]))
    && silent <= |readings| && (!speech ==> silent == 0)
    && (forall j :: |readings| - silent <= j < |readings| ==> !Loud(cfg, readings[j]))
    && (speech ==> silent < |readings| && Loud(cfg, readings[|readings| - silent - 1]))
  }

  /** Where the meter stands after `n` samples: `k` complete windows and `count` samples of the next. */
  ghost predicate Metered(cfg: Config, s: seq<i16>, n: nat, k: nat, sqSum: real, count: nat, readings: seq<real>) {
    && n <= |s| && n == k * cfg.RmsWindow() + count && count < cfg.RmsWindow()
    && sqSum == Energy(s[n - count..n])
    && readings == Readings(cfg, s, k)
  }

  lemma NextMultiple(a: nat, b: nat, w: nat)
    requires a < b
    ensures a * w + w <= b * w
  {
    assert (b - a - 1) * w >= 0;
    assert b * w == a * w + w + (b - a - 1) * w;
  }

  lemma Multiples(a: nat, b: nat, w: nat)
    ensures a < b ==> a * w + w <= b * w
  {
    if a < b { NextMultiple(a, b, w); }
  }

  lemma DivIs(w: nat, k: nat, count: nat, n: nat, k': nat)
    requires n == k * w + count && count < w && n == k' * w
    ensures k' == k && count == 0
  {
    Multiples(k, k', w);
    Multiples(k', k, w);
  }

  /** In the middle of a window there is nothing to stop for but the length. */
  lemma NoSilenceInside(cfg: Config, s: seq<i16>, n: nat, k: nat, count: nat)
    requires n <= |s| && n == k * cfg.RmsWindow() + count && 0 < count < cfg.RmsWindow()
    ensures !SilenceAt(cfg, s, n)
  {
    if SilenceAt(cfg, s, n) {
      var k': nat :| n == k' * cfg.RmsWindow() && TrailingSilence(cfg, Readings(cfg, s, k'));
      DivIs(cfg.RmsWindow(), k, count, n, k');
    }
  }

  /** At the end of a window, silence is decided by the readings so far. */
  lemma SilenceAtWindow(cfg: Config, s: seq<i16>, n: nat, k: nat)
    requires n <= |s| && n == k * cfg.RmsWindow()
    ensures SilenceAt(cfg, s, n) <==> TrailingSilence(cfg, Readings(cfg, s, k))
  {
    if SilenceAt(cfg, s, n) {
      var k': nat :| n == k' * cfg.RmsWindow() && TrailingSilence(cfg, Readings(cfg, s, k'));
      DivIs(cfg.RmsWindow(), k, 0, n, k');
    }
  }

  /** The counter of silent windows tells whether there is trailing silence. */
  lemma CounterTells(cfg: Config, readings: seq<real>, speech: bool, silent: nat)
    requires Counted(cfg, readings, speech, silent)
    ensures TrailingSilence(cfg, readings) <==> speech && cfg.SilenceWindows().Some? && silent >= cfg.SilenceWindows().value
  {
  }

  /** The counter after one more reading. */
  lemma CountOne(cfg: Config, readings: seq<real>, speech: bool, silent: nat, reading: real)
    requires Counted(cfg, readings, speech, silent)
    ensures Counted(cfg, readings + [reading], speech || Loud(cfg, reading),
                    if Loud(cfg, reading) then 0 else if speech then silent + 1 else 0)
  {
    var longer := readings + [reading];
    assert forall j :: 0 <= j < |readings| ==> longer[j] == readings[j];
    assert longer[|readings|] == reading;
    if speech && !Loud(cfg, reading) {
      assert longer[|longer| - (silent + 1) - 1] == readings[|readings| - silent - 1];
    }
  }

  lemma EnergyGrows(s: seq<i16>, from: nat, n: nat)
    requires from <= n < |s|
    ensures Energy(s[from..n + 1]) == Energy(s[from..n]) + Square(s[n])
  {
    var longer := s[from..n + 1];
    assert longer[..|longer| - 1] == s[from..n];
  }

  /** One more sample that does not complete a window. */
  lemma MeterSample(cfg: Config, s: seq<i16>, n: nat, k: nat, sqSum: real, count: nat, readings: seq<real>)
    requires Metered(cfg, s, n, k, sqSum, count, readings) && n < |s| && count + 1 < cfg.RmsWindow()
    ensures Metered(cfg, s, n + 1, k, sqSum + Square(s[n]), count + 1, readings)
    ensures !SilenceAt(cfg, s, n + 1)
  {
    EnergyGrows(s, n - count, n);
    NoSilenceInside(cfg, s, n + 1, k, count + 1);
  }

  /** Where window `k` lies when it ends with sample `n`. */
  lemma WindowEnds(cfg: Config, s: seq<i16>, n: nat, k: nat, count: nat)
    requires n < |s| && n == k * cfg.RmsWindow() + count && count + 1 == cfg.RmsWindow()
    ensures (k + 1) * cfg.RmsWindow() == n + 1 && Window(cfg, s, k) == s[n - count..n + 1]
  {
    assert (k + 1) * cfg.RmsWindow() == k * cfg.RmsWindow() + cfg.RmsWindow();
  }

  /** The readings after one more window. */
  lemma OneMoreReading(cfg: Config, s: seq<i16>, n: nat, k: nat, sqSum: real, count: nat)
    requires n < |s| && n == k * cfg.RmsWindow() + count && count + 1 == cfg.RmsWindow() && sqSum == Energy(s[n - count..n])
    ensures (k + 1) * cfg.RmsWindow() == n + 1
    ensures Readings(cfg, s, k + 1) == Readings(cfg, s, k) + [Reading(sqSum + Square(s[n]), count + 1)]
  {
    EnergyGrows(s, n - count, n);
    WindowEnds(cfg, s, n, k, count);
  }

  /** The sample that completes a window. */
  lemma MeterWindow(cfg: Config, s: seq<i16>, n: nat, k: nat, sqSum: real, count: nat, readings: seq<real>)
    requires Metered(cfg, s, n, k, sqSum, count, readings) && n < |s| && count + 1 == cfg.RmsWindow()
    ensures var longer := readings + [Reading(sqSum + Square(s[n]), count + 1)];
            && Metered(cfg, s, n + 1, k + 1, 0.0, 0, longer)
            && (SilenceAt(cfg, s, n + 1) <==> TrailingSilence(cfg, longer))
  {
    OneMoreReading(cfg, s, n, k, sqSum, count);
    assert Energy(s[n + 1..n + 1]) == 0.0;
    SilenceAtWindow(cfg, s, n + 1, k + 1);
  }

  lemma StartsMetered(cfg: Config, s: seq<i16>)
    ensures Metered(cfg, s, 0, 0, 0.0, 0, []) && Counted(cfg, [], false, 0)
  {
    assert s[0..0] == [];
  }

  // ------------------------------------------------------------------
  // The loop
  // ------------------------------------------------------------------

  /** No stop after any of the first `n` samples. */
  ghost predicate Running(cfg: Config, s: seq<i16>, n: nat) {
    n <= |s| && forall m: nat :: m <= n ==> !StopsAt(cfg, s, m)
  }

  /** Bytes taken so far are `pairs` whole samples and the leftover. */
  ghost predicate Aligned(all: Bytes, pairs: nat, leftover: Bytes, ahead: Bytes) {
    2 * pairs + |leftover| + |ahead| == |all| && all[2 * pairs..] == leftover + ahead
  }

  lemma SampleIs(cfg: Config, all: Bytes, s: seq<i16>, pairs: nat, leftover: Bytes, ahead: Bytes)
    requires s == Samples(cfg, all) && Aligned(all, pairs, leftover, ahead) && |leftover| >= 2
    ensures var n := pairs - cfg.SkipSamples();
            n >= 0 ==> n < |s| && s[n] == ApplyGain(Decode(leftover[0], leftover[1]), cfg.gain)
  {
    assert all[2 * pairs] == all[2 * pairs..][0] && all[2 * pairs + 1] == all[2 * pairs..][1];
  }

  lemma TakePair(all: Bytes, pairs: nat, leftover: Bytes, ahead: Bytes)
    requires Aligned(all, pairs, leftover, ahead) && |leftover| >= 2
    ensures Aligned(all, pairs + 1, leftover[2..], ahead)
  {
    assert all[2 * (pairs + 1)..] == all[2 * pairs..][2..];
  }

  lemma TakeChunk(all: Bytes, pairs: nat, leftover: Bytes, bytes: Bytes, ahead: Bytes)
    requires Aligned(all, pairs, leftover, bytes + ahead)
    ensures Aligned(all, pairs, leftover + bytes, ahead)
  {
    assert leftover + (bytes + ahead) == leftover + bytes + ahead;
  }

  lemma AllTaken(all: Bytes, pairs: nat, leftover: Bytes, ahead: Bytes)
    requires Aligned(all, pairs, leftover, ahead) && |leftover| < 2 && ahead == []
    ensures pairs == |all| / 2
  {
  }

  lemma NextEvent(events: seq<Event>, e: nat)
    requires e < |events|
    ensures Delivered(events[e..]) ==
            match events[e]
            case Data(bytes) => bytes + Delivered(events[e + 1..])
            case Interrupted => Delivered(events[e + 1..])
            case _ => []
  {
    assert events[e..][1..] == events[e + 1..];
  }

  /** Sample `n` is the first to end the capture, on silence or else on length. */
  ghost predicate Stopped(cfg: Config, s: seq<i16>, n: nat, silence: bool) {
    && 1 <= n <= |s| && Running(cfg, s, n - 1)
    && StopsAt(cfg, s, n) && (silence <==> SilenceAt(cfg, s, n))
  }

  lemma Decide(cfg: Config, s: seq<i16>, n: nat, silence: bool)
    requires Running(cfg, s, n) && n < |s| && (silence <==> SilenceAt(cfg, s, n + 1))
    ensures if silence || n + 1 >= cfg.MaxSamples() then Stopped(cfg, s, n + 1, silence) else Running(cfg, s, n + 1)
  {
  }

  /** The loop's counters and buffers. */
  class Meter {
    const cfg: Config
    var samples: seq<i16>
    var readings: seq<real>
    var sqSum: real
    var windowCount: nat
    var speechSeen: bool
    var silentWindows: nat
    var skipped: nat

    /** Window bookkeeping, whether or not the capture has just stopped. */
    ghost predicate Keeps(s: seq<i16>)
      reads this
    {
      && |samples| <= |s| && samples == s[..|samples|]
      && Metered(cfg, s, |samples|, |readings|, sqSum, windowCount, readings)
      && Counted(cfg, readings, speechSeen, silentWindows)
    }

    /** `pairs` whole samples of the stream have been taken and none ended the capture. */
    ghost predicate Level(s: seq<i16>, pairs: nat)
      reads this
    {
      && skipped == (if pairs < cfg.SkipSamples() then pairs else cfg.SkipSamples()) && |samples| == pairs - skipped
      && Keeps(s) && Running(cfg, s, |samples|)
    }

    constructor (cfg: Config, ghost s: seq<i16>)
      ensures this.cfg == cfg && Level(s, 0)
    {
      this.cfg := cfg;
      samples, readings, sqSum, windowCount, speechSeen, silentWindows, skipped := [], [], 0.0, 0, false, 0, 0;
      new;
      StartsMetered(cfg, s);
    }

    /** A window is complete: its reading is reported and its silence counted. */
    method EndWindow() returns (silence: bool)
      requires windowCount >= 1 && Counted(cfg, readings, speechSeen, silentWindows)
      modifies this
      ensures samples == old(samples) && skipped == old(skipped) && sqSum == 0.0 && windowCount == 0
      ensures readings == old(readings) + [Reading(old(sqSum), old(windowCount))]
      ensures Counted(cfg, readings, speechSeen, silentWindows)
      ensures silence <==> TrailingSilence(cfg, readings)
    {
      var reading := Reading(sqSum, windowCount);
      CountOne(cfg, readings, speechSeen, silentWindows, reading);
      readings := readings + [reading];
      sqSum, windowCount := 0.0, 0;
      silence := false;
      if Loud(cfg, reading) {
        speechSeen, silentWindows := true, 0;
      } else if speechSeen {
        silentWindows := silentWindows + 1;
        var limit := cfg.SilenceWindows();
        silence := limit.Some? && silentWindows >= limit.value;
      }
      CounterTells(cfg, readings, speechSeen, silentWindows);
    }

    /** A sample inside the current window. */
    method RecordInside(sample: i16, ghost s: seq<i16>)
      requires Keeps(s) && |samples| < |s| && sample == s[|samples|] && windowCount + 1 < cfg.RmsWindow()
      modifies this
      ensures samples == old(samples) + [sample] && skipped == old(skipped) && Keeps(s)
      ensures !SilenceAt(cfg, s, |samples|)
    {
      MeterSample(cfg, s, |samples|, |readings|, sqSum, windowCount, readings);
      samples := samples + [sample];
      sqSum, windowCount := sqSum + Square(sample), windowCount + 1;
    }

    /** The last sample of the current window. */
    method RecordLast(sample: i16, ghost s: seq<i16>) returns (silence: bool)
      requires Keeps(s) && |samples| < |s| && sample == s[|samples|] && windowCount + 1 == cfg.RmsWindow()
      modifies this
      ensures samples == old(samples) + [sample] && skipped == old(skipped) && Keeps(s)
      ensures silence <==> SilenceAt(cfg, s, |samples|)
    {
      MeterWindow(cfg, s, |samples|, |readings|, sqSum, windowCount, readings);
      samples := samples + [sample];
      sqSum, windowCount := sqSum + Square(sample), windowCount + 1;
      silence := EndWindow();
    }

    /** One more sample goes into the buffer and the current window. */
    method Record(sample: i16, ghost s: seq<i16>) returns (silence: bool)
      requires Keeps(s) && |samples| < |s| && sample == s[|samples|]
      modifies this
      ensures samples == old(samples) + [sample] && skipped == old(skipped) && Keeps(s)
      ensures silence <==> SilenceAt(cfg, s, |samples|)
    {
      silence := false;
      if windowCount + 1 >= cfg.RmsWindow() {
        silence := RecordLast(sample, s);
      } else {
        RecordInside(sample, s);
      }
    }

    /** One more sample; says whether the capture stops with it, and why. */
    method Take(sample: i16, ghost s: seq<i16>) returns (end: End)
      requires Keeps(s) && Running(cfg, s, |samples|) && |samples| < |s| && sample == s[|samples|]
      modifies this
      ensures samples == old(samples) + [sample] && skipped == old(skipped) && Keeps(s)
      ensures end == StreamEnded ==> Running(cfg, s, |samples|)
      ensures end != StreamEnded ==> Stopped(cfg, s, |samples|, end == Silence)
    {
      ghost var n := |samples|;
      var silence := Record(sample, s);
      Decide(cfg, s, n, silence);
      return if silence then Silence else if |samples| >= cfg.MaxSamples() then TooLong else StreamEnded;
    }

    /** The next whole sample of the stream: part of the lead-in, or one to take. */
    method TakeOne(raw: i16, ghost s: seq<i16>, ghost pairs: nat) returns (end: End)
      requires Level(s, pairs)
      requires pairs >= cfg.SkipSamples() ==> |samples| < |s| && s[|samples|] == ApplyGain(raw, cfg.gain)
      modifies this
      ensures end == StreamEnded ==> Level(s, pairs + 1)
      ensures end != StreamEnded ==> Keeps(s) && Stopped(cfg, s, |samples|, end == Silence)
    {
      if skipped < cfg.SkipSamples() {
        skipped := skipped + 1;
        return StreamEnded;
      }
      end := Take(ApplyGain(raw, cfg.gain), s);
    }

    /** The whole samples in the bytes at hand, up to one that ends the capture. */
    method TakePairs(bytes: Bytes, ghost all: Bytes, ghost s: seq<i16>, ghost pairs: nat, ghost ahead: Bytes)
      returns (rest: Bytes, end: End, ghost taken: nat)
      requires s == Samples(cfg, all) && Level(s, pairs) && Aligned(all, pairs, bytes, ahead)
      modifies this
      ensures end == StreamEnded ==> Level(s, taken) && Aligned(all, taken, rest, ahead) && |rest| < 2
      ensures end != StreamEnded ==> Captured(cfg, all, Result(end))
    {
      rest, end, taken := bytes, StreamEnded, pairs;
      while |rest| >= 2
        invariant end == StreamEnded && Level(s, taken) && Aligned(all, taken, rest, ahead)
      {
        SampleIs(cfg, all, s, taken, rest, ahead);
        end := TakeOne(Decode(rest[0], rest[1]), s, taken);
        if end != StreamEnded {
          EndsOnStop(all, s, end);
          return;
        }
        TakePair(all, taken, rest, ahead);
        rest, taken := rest[2..], taken + 1;
      }
    }

    /** The clip so far, with the reason it ended. */
    function Result(end: End): Capture
      reads this
    {
      Capture(samples, readings, end, speechSeen)
    }

    lemma EndsWithStream(all: Bytes, s: seq<i16>, pairs: nat)
      requires s == Samples(cfg, all) && Level(s, pairs) && pairs == |all| / 2
      ensures Captured(cfg, all, Result(StreamEnded))
    {
      CapturedWhen(cfg, all, s, Result(StreamEnded), sqSum, windowCount, silentWindows);
    }

    lemma EndsOnStop(all: Bytes, s: seq<i16>, end: End)
      requires s == Samples(cfg, all) && end != StreamEnded && Keeps(s) && Stopped(cfg, s, |samples|, end == Silence)
      ensures Captured(cfg, all, Result(end))
    {
      CapturedWhen(cfg, all, s, Result(end), sqSum, windowCount, silentWindows);
    }
  }

  lemma WindowsFit(w: nat, k: nat, count: nat, n: nat)
    requires n == k * w + count && count < w
    ensures k * w <= n < (k + 1) * w
  {
    assert (k + 1) * w == k * w + w;
  }

  /** Counters in step with the stream make a capture of it, at its end or where it first stops. */
  lemma CapturedWhen(cfg: Config, bytes: Bytes, s: seq<i16>, c: Capture, sqSum: real, count: nat, silent: nat)
    requires s == Samples(cfg, bytes) && |c.samples| <= |s| && c.samples == s[..|c.samples|]
    requires Metered(cfg, s, |c.samples|, |c.readings|, sqSum, count, c.readings)
    requires Counted(cfg, c.readings, c.speechHeard, silent)
    requires if c.end == StreamEnded then |c.samples| == |s| && Running(cfg, s, |s|)
             else Stopped(cfg, s, |c.samples|, c.end == Silence)
    ensures Captured(cfg, bytes, c)
  {
    WindowsFit(cfg.RmsWindow(), |c.readings|, count, |c.samples|);
  }

  /** `read_loop`, for any sequence of reads. */
  method ReadLoop(cfg: Config, events: seq<Event>) returns (c: Capture)
    ensures Captured(cfg, Delivered(events), c)
  {
    ghost var all := Delivered(events);
    ghost var s := Samples(cfg, all);
    ghost var pairs: nat := 0;
    var leftover: Bytes := [];
    var meter := new Meter(cfg, s);
    var e := 0;
    while e < |events|
      invariant e <= |events| && fresh(meter) && meter.cfg == cfg && meter.Level(s, pairs)
      invariant Aligned(all, pairs, leftover, Delivered(events[e..])) && |leftover| < 2
    {
      NextEvent(events, e);
      ghost var ahead := Delivered(events[e + 1..]);
      match events[e] {
        case Interrupted => e := e + 1;
        case Data(bytes) =>
          TakeChunk(all, pairs, leftover, bytes, ahead);
          var end;
          leftover, end, pairs := meter.TakePairs(leftover + bytes, all, s, pairs, ahead);
          if end != StreamEnded {
            return meter.Result(end);
          }
          e := e + 1;
        case _ => break;
      }
    }
    assert Delivered(events[e..]) == [];
    AllTaken(all, pairs, leftover, Delivered(events[e..]));
    meter.EndsWithStream(all, s, pairs);
    return meter.Result(StreamEnded);
  }
}
