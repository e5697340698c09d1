/** What the one-pass description makes of a capture: it is unique, and where it stops is a matter of the stream's windows. */
module AudioStops {
  import opened Common
  import opened Bytes
  import opened Audio

  /** The byte stream alone decides the capture: how it was cut into reads does not matter. */
  lemma CaptureIsUnique(cfg: Config, bytes: Bytes, a: Capture, b: Capture)
    requires Captured(cfg, bytes, a) && Captured(cfg, bytes, b)
    ensures a == b
  {
    var s, w := Samples(cfg, bytes), cfg.RmsWindow();
    SameLength(cfg, bytes, a, b);
    Multiples(|a.readings|, |b.readings|, w);
    Multiples(|b.readings|, |a.readings|, w);
    assert (|a.readings| + 1) * w == |a.readings| * w + w && (|b.readings| + 1) * w == |b.readings| * w + w;
    assert |a.readings| == |b.readings|;
  }

  lemma SameLength(cfg: Config, bytes: Bytes, a: Capture, b: Capture)
    requires Captured(cfg, bytes, a) && Captured(cfg, bytes, b)
    ensures |a.samples| == |b.samples|
  {
    var s := Samples(cfg, bytes);
    assert StopsAt(cfg, s, |a.samples|) || |a.samples| == |s|;
    assert StopsAt(cfg, s, |b.samples|) || |b.samples| == |s|;
  }

  /** A read may be cut anywhere, in the middle of a sample too. */
  lemma {:induction false} CutAnywhere(events: seq<Event>, i: nat, cut: nat)
    requires i < |events| && events[i].Data? && cut <= |events[i].bytes|
    ensures Delivered(events[..i] + [Data(events[i].bytes[..cut]), Data(events[i].bytes[cut..])] + events[i + 1..])
         == Delivered(events)
  {
    var bytes := events[i].bytes;
    var halves := [Data(bytes[..cut]), Data(bytes[cut..])];
    var recut := events[..i] + halves + events[i + 1..];
    if i == 0 {
      assert recut == [halves[0]] + ([halves[1]] + events[1..]);
      assert recut[1..] == [halves[1]] + events[1..] && recut[1..][1..] == events[1..];
      assert bytes[..cut] + (bytes[cut..] + Delivered(events[1..])) == bytes + Delivered(events[1..]);
    } else {
      CutAnywhere(events[1..], i - 1, cut);
      assert recut[1..] == events[1..][..i - 1] + halves + events[1..][i..];
      assert recut[0] == events[0];
    }
  }

  function Limit(cfg: Config): nat {
    if cfg.MaxSamples() >= 1 then cfg.MaxSamples() else 1
  }

  /** Window `j` of the stream, counting from 0, is louder than the threshold. */
  ghost predicate SpeechIn(cfg: Config, s: seq<i16>, j: nat) {
    (j + 1) * cfg.RmsWindow() <= |s| && Loud(cfg, WindowReading(cfg, s, j))
  }

  /** The sum of the squares of the samples. */
  function Squares(s: seq<i16>): nat {
    if s == [] then 0 else
      var x := s[|s| - 1] as int;
      Squares(s[..|s| - 1]) + x * x
  }

  lemma SquareScales(x: real, norm: real)
    requires norm * 32768.0 == x
    ensures norm * norm * 1073741824.0 == x * x
  {
    assert x * x == norm * 32768.0 * x;
    assert norm * 32768.0 * x == norm * 32768.0 * (norm * 32768.0);
  }

  lemma Products(a: nat, b: nat, c: nat)
    requires a <= b
    ensures 0 <= a * c <= b * c
  {
    assert b * c == a * c + (b - a) * c;
  }

  lemma SmallSquare(y: nat)
    requires y <= 0x8000
    ensures 0 <= y * y <= 1073741824
  {
    Products(y, 0x8000, y);
  }

  lemma SquareOfInt(x: int)
    requires -0x8000 <= x <= 0x8000
    ensures x as real * x as real == (x * x) as real && 0 <= x * x <= 1073741824
  {
    if x >= 0 {
      SmallSquare(x);
    } else {
      SmallSquare(-x);
      assert x * x == -x * -x;
    }
  }

  lemma SquareIs(sample: i16, x: int)
    requires x == sample as int
    ensures Square(sample) * 1073741824.0 == (x * x) as real && 0 <= x * x <= 1073741824
  {
    SquareOfInt(x);
    SquareScales(x as real, sample as real / 32768.0);
  }

  lemma {:induction false} EnergyIs(s: seq<i16>)
    ensures Energy(s) * 1073741824.0 == Squares(s) as real && Squares(s) <= |s| * 1073741824
  {
    if s == [] {
    } else {
      EnergyIs(s[..|s| - 1]);
      SquareIs(s[|s| - 1], s[|s| - 1] as int);
    }
  }

  lemma MeanCompares(e: real, n: real, mean: real, sum: real, q: real)
    requires n >= 1.0 && mean * n == e && e * 1073741824.0 == sum
    ensures mean > q <==> sum > q * (n * 1073741824.0)
    ensures 0.0 <= sum ==> mean >= 0.0
    ensures sum <= n * 1073741824.0 ==> mean <= 1.0
  {
    var unit := n * 1073741824.0;
    assert sum == mean * unit && unit >= 1.0;
    assert (mean - q) * unit == sum - q * unit;
    assert mean > q ==> (mean - q) * unit > 0.0;
    assert mean <= q ==> (mean - q) * unit <= 0.0;
    assert mean < 0.0 ==> mean * unit < 0.0;
    assert mean > 1.0 ==> (mean - 1.0) * unit > 0.0;
  }

  /** A reading is the mean of the squares; it never has to be kept within its bounds. */
  lemma ReadingCompares(window: seq<i16>, q: real)
    requires |window| >= 1
    ensures Reading(Energy(window), |window|) > q <==> Squares(window) as real > q * (|window| as real * 1073741824.0)
  {
    EnergyIs(window);
    MeanCompares(Energy(window), |window| as real, Energy(window) / |window| as real, Squares(window) as real, q);
  }

  /** A window is loud if and only if its samples, of at most 32768 in size, have a root mean square above the threshold. */
  lemma LoudMeans(cfg: Config, s: seq<i16>, j: nat)
    ensures SpeechIn(cfg, s, j)
       <==> var w, t := cfg.RmsWindow(), cfg.silenceThreshold;
            && (j + 1) * w <= |s|
            && (t < 0.0 || Squares(s[j * w..(j + 1) * w]) as real > t * t * (w as real * 1073741824.0))
  {
    if (j + 1) * cfg.RmsWindow() <= |s| {
      WindowIsLong(cfg, s, j);
      ReadingCompares(Window(cfg, s, j), cfg.silenceThreshold * cfg.silenceThreshold);
    }
  }

  lemma WindowIsLong(cfg: Config, s: seq<i16>, j: nat)
    requires (j + 1) * cfg.RmsWindow() <= |s|
    ensures |Window(cfg, s, j)| == cfg.RmsWindow()
  {
    assert (j + 1) * cfg.RmsWindow() == j * cfg.RmsWindow() + cfg.RmsWindow();
  }

  /** Of the first `k` windows, `j` is the last that is loud, and the windows since have lasted the timeout. */
  ghost predicate SilentSince(cfg: Config, s: seq<i16>, k: nat, j: nat) {
    && j < k && SpeechIn(cfg, s, j)
    && (forall i: nat :: j < i < k ==> !SpeechIn(cfg, s, i))
    && (k - 1 - j) * (if cfg.rmsIntervalMs == 0 then 1 else cfg.rmsIntervalMs) >= cfg.silenceTimeoutMs
  }

  /** The first `k` windows hold speech, and then silence as long as the timeout, if there is one. */
  ghost predicate SpeechThenSilence(cfg: Config, s: seq<i16>, k: nat) {
    cfg.silenceTimeoutMs != 0 && k * cfg.RmsWindow() <= |s| && exists j: nat :: SilentSince(cfg, s, k, j)
  }

  lemma EnoughWindows(n: nat, limit: nat, ms: nat, timeout: nat)
    requires limit >= 1 && (limit - 1) * ms < timeout <= limit * ms
    ensures n * ms >= timeout <==> n >= limit
  {
    if n >= limit {
      assert n * ms == limit * ms + (n - limit) * ms;
    } else {
      assert (limit - 1) * ms == n * ms + (limit - 1 - n) * ms;
    }
  }

  lemma {:induction false} LastLoud(cfg: Config, s: seq<i16>, k: nat, j: nat) returns (last: nat)
    requires j < k && SpeechIn(cfg, s, j)
    ensures j <= last < k && SpeechIn(cfg, s, last) && forall i: nat :: last < i < k ==> !SpeechIn(cfg, s, i)
    decreases k
  {
    if SpeechIn(cfg, s, k - 1) {
      last := k - 1;
    } else {
      last := LastLoud(cfg, s, k - 1, j);
    }
  }

  /** Enough silent windows at the end, after a loud one, are silence since the last loud one. */
  lemma SilenceSince(cfg: Config, s: seq<i16>, k: nat, limit: nat)
    requires cfg.SilenceWindows() == Some(limit)
    ensures (exists j: nat :: SilentSince(cfg, s, k, j))
       <==> limit <= k && (forall j: nat :: k - limit <= j < k ==> !SpeechIn(cfg, s, j))
            && (exists j: nat :: j < k - limit && SpeechIn(cfg, s, j))
  {
    var ms := if cfg.rmsIntervalMs == 0 then 1 else cfg.rmsIntervalMs;
    TimeoutIs(cfg);
    if j: nat :| SilentSince(cfg, s, k, j) {
      EnoughWindows(k - 1 - j, limit, ms, cfg.silenceTimeoutMs);
    }
    if limit <= k && forall i: nat :: k - limit <= i < k ==> !SpeechIn(cfg, s, i) {
      if j: nat :| j < k - limit && SpeechIn(cfg, s, j) {
        var last := LastLoud(cfg, s, k, j);
        EnoughWindows(k - 1 - last, limit, ms, cfg.silenceTimeoutMs);
        assert SilentSince(cfg, s, k, last);
      }
    }
  }

  lemma {:induction false} ReadingsAre(cfg: Config, s: seq<i16>, k: nat, j: nat)
    requires k * cfg.RmsWindow() <= |s| && j < k
    ensures (j + 1) * cfg.RmsWindow() <= |s| && Readings(cfg, s, k)[j] == WindowReading(cfg, s, j)
  {
    WithinWindows(cfg.RmsWindow(), k - 1, k, |s|);
    WithinWindows(cfg.RmsWindow(), j, k, |s|);
    if j >= k - 1 {
    } else {
      ReadingsAre(cfg, s, k - 1, j);
    }
  }

  lemma SilenceMeans(cfg: Config, s: seq<i16>, k: nat)
    requires k * cfg.RmsWindow() <= |s|
    ensures TrailingSilence(cfg, Readings(cfg, s, k)) <==> SpeechThenSilence(cfg, s, k)
  {
    var r := Readings(cfg, s, k);
    forall j: nat | j < k ensures Loud(cfg, r[j]) <==> SpeechIn(cfg, s, j) {
      ReadingsAre(cfg, s, k, j);
    }
    match cfg.SilenceWindows()
    case None =>
    case Some(limit) =>
      SilenceSince(cfg, s, k, limit);
      SilentReadings(cfg, s, r, k, limit);
  }

  lemma SilentReadings(cfg: Config, s: seq<i16>, r: seq<real>, k: nat, limit: nat)
    requires |r| == k && (forall j: nat :: j < k ==> (Loud(cfg, r[j]) <==> SpeechIn(cfg, s, j))) && cfg.SilenceWindows() == Some(limit)
    ensures TrailingSilence(cfg, r)
       <==> limit <= k && (forall j: nat :: k - limit <= j < k ==> !SpeechIn(cfg, s, j))
            && (exists j: nat :: j < k - limit && SpeechIn(cfg, s, j))
  {
  }

  /**
   Auto-stop is exact. Silence ends the capture just when the windows up to some point no later
   than the length limit are speech and then silence for as long as the timeout, and it ends it at the
   first such point; the limit ends it just when the stream reaches the limit first; and the clip is
   never longer than the limit.
   */
  lemma StopsAreExact(cfg: Config, bytes: Bytes, c: Capture)
    requires Captured(cfg, bytes, c)
    ensures var s := Samples(cfg, bytes);
            && |c.samples| <= Limit(cfg)
            && (|c.samples| <= 1 || |c.samples| as real <= cfg.rate as real * cfg.maxClipSecs)
            && (c.end == Silence ==> exists k: nat :: k * cfg.RmsWindow() == |c.samples| && SpeechThenSilence(cfg, s, k))
            && (forall k: nat :: k * cfg.RmsWindow() < |c.samples| ==> !SpeechThenSilence(cfg, s, k))
            && (c.end == Silence <==> exists k: nat :: k * cfg.RmsWindow() <= Limit(cfg) && SpeechThenSilence(cfg, s, k))
            && (c.end == TooLong <==>
                (|s| >= Limit(cfg) && forall k: nat :: k * cfg.RmsWindow() <= Limit(cfg) ==> !SpeechThenSilence(cfg, s, k)))
  {
    var s, n, w := Samples(cfg, bytes), |c.samples|, cfg.RmsWindow();
    CountsAre(cfg);
    forall k: nat | k * w < n ensures !SpeechThenSilence(cfg, s, k) {
      if SpeechThenSilence(cfg, s, k) {
        SilenceWouldStop(cfg, s, k);
      }
    }
    if n > Limit(cfg) {
      assert StopsAt(cfg, s, Limit(cfg));
    }
    if c.end == Silence {
      var k: nat :| n == k * w && TrailingSilence(cfg, Readings(cfg, s, k));
      SilenceMeans(cfg, s, k);
    } else {
      forall k: nat | k * w <= Limit(cfg) ensures !SpeechThenSilence(cfg, s, k) {
        if SpeechThenSilence(cfg, s, k) {
          SilenceWouldStop(cfg, s, k);
        }
      }
    }
  }

  lemma SilenceWouldStop(cfg: Config, s: seq<i16>, k: nat)
    requires SpeechThenSilence(cfg, s, k)
    ensures k * cfg.RmsWindow() >= 1 && SilenceAt(cfg, s, k * cfg.RmsWindow()) && StopsAt(cfg, s, k * cfg.RmsWindow())
  {
    SilenceMeans(cfg, s, k);
    NextMultiple(0, k, cfg.RmsWindow());
    assert SilenceAt(cfg, s, k * cfg.RmsWindow());
  }

  lemma BeforeLast(w: nat, j: nat, k: nat, n: nat)
    requires (j + 1) * w <= n < (k + 1) * w
    ensures j < k
  {
    Multiples(k, j, w);
    assert (k + 1) * w == k * w + w && (j + 1) * w == j * w + w;
  }

  lemma SpeechInside(cfg: Config, s: seq<i16>, n: nat, k: nat, j: nat)
    requires k * cfg.RmsWindow() <= n <= |s| && j < k
    ensures SpeechIn(cfg, s[..n], j) <==> Loud(cfg, Readings(cfg, s, k)[j])
  {
    ReadingsAre(cfg, s, k, j);
    WithinWindows(cfg.RmsWindow(), j, k, n);
    assert Window(cfg, s, j) == Window(cfg, s[..n], j);
  }

  lemma NoWindowBehind(w: nat, n: nat, k: nat, j: nat)
    requires n < (k + 1) * w && (j + 1) * w <= n
    ensures j < k
  {
    BeforeLast(w, j, k, n);
  }

  /** The loud windows among the first `n` samples are the loud readings. */
  lemma SpeechInPrefix(cfg: Config, s: seq<i16>, n: nat, k: nat, j: nat)
    requires k * cfg.RmsWindow() <= n <= |s| && n < (k + 1) * cfg.RmsWindow()
    ensures SpeechIn(cfg, s[..n], j) <==> j < k && Loud(cfg, Readings(cfg, s, k)[j])
  {
    if j < k {
      SpeechInside(cfg, s, n, k, j);
    } else if SpeechIn(cfg, s[..n], j) {
      NoWindowBehind(cfg.RmsWindow(), n, k, j);
    }
  }

  /** Speech is reported just when some complete window of the clip is loud. */
  lemma SpeechIsHeard(cfg: Config, bytes: Bytes, c: Capture)
    requires Captured(cfg, bytes, c)
    ensures c.speechHeard <==> exists j: nat :: SpeechIn(cfg, c.samples, j)
  {
    forall j: nat ensures SpeechIn(cfg, c.samples, j) <==> j < |c.readings| && Loud(cfg, c.readings[j]) {
      SpeechInPrefix(cfg, Samples(cfg, bytes), |c.samples|, |c.readings|, j);
    }
  }
}
