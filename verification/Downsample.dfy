/** Fitting captured PCM to what an encoder takes: channel selection and integer-ratio averaging. */
module Downsample {
  import opened Options
  import opened AudioEncoderConfig

  /** Interleaved signed 16-bit samples. */
  datatype Input = Input(data: seq<int>, samples: int, sampleRate: int, channels: int)

  const LOWEST: int := -32768
  const HIGHEST: int := 32767

  /** The buffer is as long as the header says and holds 16-bit samples. */
  ghost predicate WellFormed(x: Input) {
    && (x.samples > 0 && x.channels > 0 ==> |x.data| == x.samples * x.channels)
    && (forall i :: 0 <= i < |x.data| ==> LOWEST <= x.data[i] <= HIGHEST)
  }

  lemma Monotone(a: int, b: int, n: int)
    requires a <= b && n >= 0
    ensures a * n <= b * n
  {
  }

  lemma Divided(a: int, b: int)
    requires b > 0
    ensures a == (a / b) * b + a % b && 0 <= a % b < b
  {
  }

  /** Division that drops the fraction, as the language divides signed integers. */
  function TowardZero(a: int, b: int): int
    requires b > 0
  {
    if a >= 0 then a / b else -((-a) / b)
  }

  function Ratio(n: Config, x: Input): int
    requires n.sampleRate > 0
  {
    x.sampleRate / n.sampleRate
  }

  predicate Fits(n: Config, x: Input)
    requires n.sampleRate > 0
  {
    && x.data != [] && x.samples > 0 && x.sampleRate > 0 && x.channels > 0
    && x.sampleRate >= n.sampleRate && x.sampleRate % n.sampleRate == 0
    && Ratio(n, x) > 0 && x.samples % Ratio(n, x) == 0
    && (if n.channels == 1 then 0 <= n.captureChannel < x.channels else n.channels == x.channels)
  }

  lemma MultipleDivides(k: int, b: int)
    requires b > 0
    ensures (k * b) / b == k && (k * b) % b == 0
  {
    var a := k * b;
    Divided(a, b);
    var q := a / b;
    assert (k - q) * b == k * b - q * b == a % b;
    if k - q >= 1 {
      Monotone(1, k - q, b);
    }
    if k - q <= -1 {
      Monotone(k - q, -1, b);
    }
  }

  predicate Multiples(k: int, m: int, rate: int, base: int, samples: int) {
    k >= 1 && rate == k * base && samples == m * k
  }

  /** The input fits exactly when its rate is a whole multiple of the encoder's, its samples come in whole
      groups of that many, and it has the channels: the chosen one for a mono encoder, else as many. */
  lemma FitsIff(n: Config, x: Input)
    requires n.sampleRate > 0
    ensures Fits(n, x) <==>
              && x.data != [] && x.samples > 0 && x.channels > 0
              && (exists k, m :: Multiples(k, m, x.sampleRate, n.sampleRate, x.samples))
              && (n.channels == 1 ==> 0 <= n.captureChannel < x.channels)
              && (n.channels != 1 ==> n.channels == x.channels)
  {
    if Fits(n, x) {
      Divided(x.sampleRate, n.sampleRate);
      Divided(x.samples, Ratio(n, x));
      assert Multiples(Ratio(n, x), x.samples / Ratio(n, x), x.sampleRate, n.sampleRate, x.samples);
    }
    if k, m :| Multiples(k, m, x.sampleRate, n.sampleRate, x.samples) {
      MultipleDivides(k, n.sampleRate);
      MultipleDivides(m, k);
      Monotone(1, k, n.sampleRate);
    }
  }

  function SourceChannel(n: Config, c: int): int {
    if n.channels == 1 then n.captureChannel else c
  }

  /** Where the source sample of one channel is. */
  function At(x: Input, sample: int, channel: int): int {
    sample * x.channels + channel
  }

  lemma AtInBounds(x: Input, sample: int, channel: int)
    requires 0 <= sample < x.samples && 0 <= channel < x.channels
    ensures 0 <= At(x, sample, channel) < x.samples * x.channels
  {
    Monotone(0, sample, x.channels);
    Monotone(sample, x.samples - 1, x.channels);
  }

  lemma SampleInRange(samples: int, ratio: int, s: int, r: int)
    requires ratio > 0 && samples % ratio == 0 && 0 <= s < samples / ratio && 0 <= r < ratio
    ensures 0 <= s * ratio + r < samples
  {
    Divided(samples, ratio);
    Monotone(0, s, ratio);
    Monotone(s, samples / ratio - 1, ratio);
  }

  function Source(x: Input, sample: int, channel: int): int
    requires |x.data| == x.samples * x.channels && 0 <= sample < x.samples && 0 <= channel < x.channels
  {
    AtInBounds(x, sample, channel);
    x.data[At(x, sample, channel)]
  }

  /** The source samples that one output sample averages. */
  function Window(x: Input, ratio: int, s: int, channel: int): (w: seq<int>)
    requires |x.data| == x.samples * x.channels && ratio > 0 && x.samples % ratio == 0
    requires 0 <= s < x.samples / ratio && 0 <= channel < x.channels
    ensures |w| == ratio
  {
    seq(ratio, r requires 0 <= r < ratio => SampleInRange(x.samples, ratio, s, r); Source(x, s * ratio + r, channel))
  }

  lemma SourceRange(x: Input, sample: int, channel: int)
    requires WellFormed(x) && 0 <= sample < x.samples && 0 <= channel < x.channels
    ensures LOWEST <= Source(x, sample, channel) <= HIGHEST
  {
    AtInBounds(x, sample, channel);
  }

  lemma WindowRange(x: Input, ratio: int, s: int, channel: int)
    requires WellFormed(x) && x.samples > 0 && ratio > 0 && x.samples % ratio == 0
    requires 0 <= s < x.samples / ratio && 0 <= channel < x.channels
    ensures var w := Window(x, ratio, s, channel); forall i :: 0 <= i < |w| ==> LOWEST <= w[i] <= HIGHEST
  {
    var w := Window(x, ratio, s, channel);
    forall i | 0 <= i < |w| ensures LOWEST <= w[i] <= HIGHEST {
      SampleInRange(x.samples, ratio, s, i);
      SourceRange(x, s * ratio + i, channel);
    }
  }

  function Sum(w: seq<int>): int {
    if w == [] then 0 else Sum(w[..|w| - 1]) + w[|w| - 1]
  }

  lemma OneMore(a: int, n: int)
    ensures a * (n + 1) == a * n + a
  {
  }

  lemma {:induction false} SumBounds(w: seq<int>, lo: int, hi: int)
    requires forall i :: 0 <= i < |w| ==> lo <= w[i] <= hi
    ensures lo * |w| <= Sum(w) <= hi * |w|
  {
    if w == [] {
    } else {
      SumBounds(w[..|w| - 1], lo, hi);
      OneMore(lo, |w| - 1);
      OneMore(hi, |w| - 1);
    }
  }

  function Mean(w: seq<int>): int
    requires w != []
  {
    TowardZero(Sum(w), |w|)
  }

  lemma QuotientBounds(a: int, b: int, lo: int, hi: int)
    requires b > 0 && lo * b <= a <= hi * b
    ensures lo <= a / b <= hi
  {
    var q := a / b;
    Divided(a, b);
    if q > hi {
      Monotone(hi + 1, q, b);
    }
    if q < lo {
      Monotone(q + 1, lo, b);
    }
  }

  lemma TowardZeroBounds(a: int, b: int, lo: int, hi: int)
    requires b > 0 && lo * b <= a <= hi * b
    ensures lo <= TowardZero(a, b) <= hi
  {
    if a >= 0 {
      QuotientBounds(a, b, lo, hi);
    } else {
      assert (-hi) * b == -(hi * b) && (-lo) * b == -(lo * b);
      QuotientBounds(-a, b, -hi, -lo);
    }
  }

  /** The mean of a window lies between any bounds of its samples, so a mean of 16-bit samples is one. */
  lemma MeanBounds(w: seq<int>, lo: int, hi: int)
    requires w != [] && forall i :: 0 <= i < |w| ==> lo <= w[i] <= hi
    ensures lo <= Mean(w) <= hi
  {
    SumBounds(w, lo, hi);
    TowardZeroBounds(Sum(w), |w|, lo, hi);
  }

  lemma QuotientIsNat(a: int, b: int)
    requires a >= 0 && b > 0
    ensures a / b >= 0
  {
  }

  lemma TowardZeroRemainder(a: int, b: int)
    requires b > 0
    ensures var m := TowardZero(a, b);
            && -b < a - m * b < b
            && (a >= 0 ==> 0 <= m * b <= a)
            && (a <= 0 ==> a <= m * b <= 0)
  {
    var p := if a >= 0 then a / b else (-a) / b;
    Divided(if a >= 0 then a else -a, b);
    QuotientIsNat(if a >= 0 then a else -a, b);
    Monotone(0, p, b);
    assert (-p) * b == -(p * b);
  }

  /** The mean is the sum divided without remainder, up to less than one per sample, toward zero. */
  lemma MeanIsNearest(w: seq<int>)
    requires w != []
    ensures var m := Mean(w);
            && -|w| < Sum(w) - m * |w| < |w|
            && (Sum(w) >= 0 ==> 0 <= m * |w| <= Sum(w))
            && (Sum(w) <= 0 ==> Sum(w) <= m * |w| <= 0)
  {
    TowardZeroRemainder(Sum(w), |w|);
  }

  lemma MeanOfOne(w: seq<int>)
    requires |w| == 1
    ensures Mean(w) == w[0]
  {
    assert w[..0] == [];
    assert Sum(w) == Sum([]) + w[0];
  }

  // ----- the whole frame -------------------------------------------------------------------

  lemma FlatIndex(s: int, c: int, n: int)
    requires n > 0 && 0 <= c < n
    ensures (s * n + c) / n == s && (s * n + c) % n == c
  {
    var q := (s * n + c) / n;
    Divided(s * n + c, n);
    if q > s {
      Monotone(s + 1, q, n);
    }
    if q < s {
      Monotone(q + 1, s, n);
    }
  }

  ghost predicate Right(n: Config, x: Input, pcm: seq<int>, j: int)
    requires n.sampleRate > 0 && n.channels > 0 && Fits(n, x) && |x.data| == x.samples * x.channels
    requires 0 <= j < |pcm|
  {
    && 0 <= j / n.channels < x.samples / Ratio(n, x) && 0 <= SourceChannel(n, j % n.channels) < x.channels
    && pcm[j] == Mean(Window(x, Ratio(n, x), j / n.channels, SourceChannel(n, j % n.channels)))
  }

  /** The first `k` output samples are what they should be. */
  ghost predicate Done(n: Config, x: Input, pcm: seq<int>, k: int)
    requires n.sampleRate > 0 && n.channels > 0 && Fits(n, x) && |x.data| == x.samples * x.channels
  {
    && 0 <= k <= |pcm| && |pcm| == (x.samples / Ratio(n, x)) * n.channels
    && forall j :: 0 <= j < k ==> Right(n, x, pcm, j)
  }

  /** The sample at flat index k = s * channels + c is right if it is the mean for frame s and channel c. */
  lemma RightAt(n: Config, x: Input, pcm: seq<int>, k: int, s: int, c: int)
    requires n.sampleRate > 0 && n.channels > 0 && Fits(n, x) && |x.data| == x.samples * x.channels
    requires 0 <= s < x.samples / Ratio(n, x) && 0 <= c < n.channels && 0 <= SourceChannel(n, c) < x.channels
    requires k == s * n.channels + c && 0 <= k < |pcm|
    requires pcm[k] == Mean(Window(x, Ratio(n, x), s, SourceChannel(n, c)))
    ensures Right(n, x, pcm, k)
  {
    FlatIndex(s, c, n.channels);
  }

  lemma FlatInBounds(frames: int, s: int, c: int, channels: int)
    requires 0 <= s < frames && 0 <= c < channels
    ensures 0 <= s * channels + c < frames * channels
  {
    Monotone(0, s, channels);
    Monotone(s, frames - 1, channels);
  }

  lemma OneMoreDone(n: Config, x: Input, before: seq<int>, pcm: seq<int>, k: int)
    requires n.sampleRate > 0 && n.channels > 0 && Fits(n, x) && |x.data| == x.samples * x.channels
    requires Done(n, x, before, k) && 0 <= k < |before| == |pcm|
    requires pcm == before[k := pcm[k]] && Right(n, x, pcm, k)
    ensures Done(n, x, pcm, k + 1)
  {
    forall j | 0 <= j < k + 1 ensures Right(n, x, pcm, j) {
      if j < k {
        assert Right(n, x, before, j) && pcm[j] == before[j];
      }
    }
  }

  method StoreNext(n: Config, x: Input, pcm: array<int>, k: int, s: int, c: int, mean: int)
    requires WellFormed(x) && n.sampleRate > 0 && n.channels > 0 && Fits(n, x)
    requires 0 <= s < x.samples / Ratio(n, x) && 0 <= c < n.channels && 0 <= SourceChannel(n, c) < x.channels
    requires mean == Mean(Window(x, Ratio(n, x), s, SourceChannel(n, c)))
    requires k == s * n.channels + c && Done(n, x, pcm[..], k)
    modifies pcm
    ensures Done(n, x, pcm[..], k + 1)
  {
    ghost var before := pcm[..];
    FlatInBounds(x.samples / Ratio(n, x), s, c, n.channels);
    pcm[k] := mean;
    assert pcm[..] == before[k := mean];
    RightAt(n, x, pcm[..], k, s, c);
    OneMoreDone(n, x, before, pcm[..], k);
  }

  method ConvertOne(n: Config, x: Input, ratio: int, s: int, c: int) returns (mean: int)
    requires WellFormed(x) && n.sampleRate > 0 && n.channels > 0 && Fits(n, x) && ratio == Ratio(n, x)
    requires 0 <= s < x.samples / ratio && 0 <= c < n.channels
    ensures 0 <= SourceChannel(n, c) < x.channels
    ensures mean == Mean(Window(x, ratio, s, SourceChannel(n, c)))
    ensures LOWEST <= mean <= HIGHEST
  {
    var channel := if n.channels == 1 then n.captureChannel else c;
    ghost var w := Window(x, ratio, s, channel);
    var sum, r := 0, 0;
    while r < ratio
      invariant 0 <= r <= ratio
      invariant sum == Sum(w[..r])
    {
      SampleInRange(x.samples, ratio, s, r);
      AtInBounds(x, s * ratio + r, channel);
      sum := sum + x.data[(s * ratio + r) * x.channels + channel];
      assert w[r] == Source(x, s * ratio + r, channel);
      assert w[..r + 1][..r] == w[..r];
      r := r + 1;
    }
    assert w[..ratio] == w;
    WindowRange(x, ratio, s, channel);
    MeanBounds(w, LOWEST, HIGHEST);
    mean := if sum >= 0 then sum / ratio else -((-sum) / ratio);
  }

  method ConvertFrame(n: Config, x: Input, pcm: array<int>, s: int)
    requires WellFormed(x) && n.sampleRate > 0 && n.channels > 0 && Fits(n, x)
    requires 0 <= s < x.samples / Ratio(n, x) && Done(n, x, pcm[..], s * n.channels)
    modifies pcm
    ensures Done(n, x, pcm[..], (s + 1) * n.channels)
  {
    var ratio := x.sampleRate / n.sampleRate;
    var base := s * n.channels;
    assert base + n.channels == (s + 1) * n.channels;
    var c := 0;
    while c < n.channels
      invariant 0 <= c <= n.channels
      invariant Done(n, x, pcm[..], base + c)
    {
      var mean := ConvertOne(n, x, ratio, s, c);
      StoreNext(n, x, pcm, base + c, s, c, mean);
      c := c + 1;
    }
  }

  /** The code: every output sample is summed up and divided. */
  method Convert(n: Config, x: Input) returns (pcm: array<int>)
    requires WellFormed(x) && n.sampleRate > 0 && n.channels > 0 && Fits(n, x)
    ensures fresh(pcm) && Done(n, x, pcm[..], pcm.Length)
  {
    var ratio := x.sampleRate / n.sampleRate;
    var frames := x.samples / ratio;
    pcm := new int[frames * n.channels];
    var s := 0;
    while s < frames
      invariant 0 <= s <= frames
      invariant Done(n, x, pcm[..], s * n.channels)
    {
      ConvertFrame(n, x, pcm, s);
      s := s + 1;
    }
  }

  // ----- what the output means -------------------------------------------------------------

  /** Where nothing is averaged, each output sample is the source sample of its channel. */
  lemma RatioOneSelects(n: Config, x: Input, pcm: seq<int>, k: int)
    requires WellFormed(x) && n.sampleRate > 0 && n.channels > 0 && Fits(n, x) && Ratio(n, x) == 1
    requires Done(n, x, pcm, |pcm|) && 0 <= k < |pcm|
    ensures 0 <= k / n.channels < x.samples && 0 <= SourceChannel(n, k % n.channels) < x.channels
    ensures pcm[k] == Source(x, k / n.channels, SourceChannel(n, k % n.channels))
  {
    assert Right(n, x, pcm, k);
    MeanOfOne(Window(x, 1, k / n.channels, SourceChannel(n, k % n.channels)));
  }

  /** `value` is the given sample of one channel of the interleaved input. */
  ghost predicate SampleIs(x: Input, sample: int, channel: int, value: int) {
    0 <= sample * x.channels + channel < |x.data| && value == x.data[sample * x.channels + channel]
  }

  /** `w` are the samples `first`, `first` + 1, .. of one channel. */
  ghost predicate Covers(x: Input, first: int, channel: int, w: seq<int>) {
    forall r :: 0 <= r < |w| ==> SampleIs(x, first + r, channel, w[r])
  }

  lemma SourceIsSample(x: Input, sample: int, channel: int)
    requires |x.data| == x.samples * x.channels && 0 <= sample < x.samples && 0 <= channel < x.channels
    ensures SampleIs(x, sample, channel, Source(x, sample, channel))
  {
    AtInBounds(x, sample, channel);
  }

  lemma WindowAt(x: Input, ratio: int, s: int, channel: int, r: int)
    requires |x.data| == x.samples * x.channels && ratio > 0 && x.samples % ratio == 0
    requires 0 <= s < x.samples / ratio && 0 <= channel < x.channels && 0 <= r < ratio
    ensures SampleIs(x, s * ratio + r, channel, Window(x, ratio, s, channel)[r])
  {
    SampleInRange(x.samples, ratio, s, r);
    SourceIsSample(x, s * ratio + r, channel);
  }

  lemma WindowCovers(x: Input, ratio: int, s: int, channel: int, first: int, w: seq<int>)
    requires |x.data| == x.samples * x.channels && ratio > 0 && x.samples % ratio == 0
    requires 0 <= s < x.samples / ratio && 0 <= channel < x.channels
    requires first == s * ratio && w == Window(x, ratio, s, channel)
    ensures Covers(x, first, channel, w)
  {
    forall r | 0 <= r < |w| ensures SampleIs(x, first + r, channel, w[r]) {
      WindowAt(x, ratio, s, channel, r);
    }
  }

  /** One output sample is the mean of the samples of its channel, or of the chosen channel for a mono
      encoder, that its frame covers: as many as the rates' ratio, from that multiple of its index on. */
  lemma WhatIsAveraged(n: Config, x: Input, pcm: seq<int>, s: int, c: int)
    requires WellFormed(x) && n.sampleRate > 0 && n.channels > 0 && Fits(n, x) && Done(n, x, pcm, |pcm|)
    requires 0 <= s < x.samples / (x.sampleRate / n.sampleRate) && 0 <= c < n.channels
    ensures 0 <= s * n.channels + c < |pcm|
    ensures var ratio, channel := x.sampleRate / n.sampleRate, if n.channels == 1 then n.captureChannel else c;
            exists w: seq<int> :: Covers(x, s * ratio, channel, w) && |w| == ratio && pcm[s * n.channels + c] == Mean(w)
  {
    var k := s * n.channels + c;
    FlatInBounds(x.samples / Ratio(n, x), s, c, n.channels);
    FlatIndex(s, c, n.channels);
    assert Right(n, x, pcm, k);
    var w := Window(x, Ratio(n, x), s, SourceChannel(n, c));
    WindowCovers(x, Ratio(n, x), s, SourceChannel(n, c), s * Ratio(n, x), w);
  }

  /** Every output sample is a 16-bit value, so storing it loses nothing. */
  lemma OutputFits(n: Config, x: Input, pcm: seq<int>, k: int)
    requires WellFormed(x) && n.sampleRate > 0 && n.channels > 0 && Fits(n, x)
    requires Done(n, x, pcm, |pcm|) && 0 <= k < |pcm|
    ensures LOWEST <= pcm[k] <= HIGHEST
  {
    assert Right(n, x, pcm, k);
    var s, channel := k / n.channels, SourceChannel(n, k % n.channels);
    WindowRange(x, Ratio(n, x), s, channel);
    MeanBounds(Window(x, Ratio(n, x), s, channel), LOWEST, HIGHEST);
  }

  lemma PassThrough(n: Config, x: Input, k: int)
    requires WellFormed(x) && n.sampleRate > 0 && n.channels > 0 && Fits(n, x)
    requires Ratio(n, x) == 1 && n.channels == x.channels && 0 <= k < |x.data|
    ensures Right(n, x, x.data, k)
  {
    var s, c := k / n.channels, k % n.channels;
    Divided(k, n.channels);
    QuotientIsNat(k, n.channels);
    if s >= x.samples {
      Monotone(x.samples, s, n.channels);
    }
    assert SourceChannel(n, c) == c;
    assert At(x, s, c) == k;
    assert Source(x, s, c) == x.data[k];
    MeanOfOne(Window(x, 1, s, c));
  }

  /** What the encoder is given: nothing if the input does not fit, the input itself if it already is
      what the encoder takes, else the converted frame. */
  method Adapt(n: Config, x: Input) returns (r: Option<seq<int>>)
    requires WellFormed(x) && n.sampleRate > 0 && n.channels > 0
    ensures r.Some? <==> Fits(n, x)
    ensures r.Some? ==> Done(n, x, r.value, |r.value|)
  {
    if !Fits(n, x) {
      return None;
    }
    if x.sampleRate / n.sampleRate == 1 && n.channels == x.channels {
      forall k | 0 <= k < |x.data| ensures Right(n, x, x.data, k) {
        PassThrough(n, x, k);
      }
      return Some(x.data);
    }
    var pcm := Convert(n, x);
    r := Some(pcm[..]);
  }
}
