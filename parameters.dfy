/**
 * The plug-in's parameter vocabulary (Parameters.h): the role, measurement and RMS-window
 * choices with their integer encodings, the documented parameter ranges and defaults, and
 * the conversion of an RMS-window choice into a sample count.
 *
 * The host-facing layout that registers these parameters is not part of this model; a
 * `Params` value is the snapshot of current parameter values the processor reads each block.
 */
module Parameters {
  import opened Numerics

  // Parameter ranges.
  const GainMin: real := -40.0
  const GainMax: real := 40.0
  const AttackMin: real := 10.0
  const AttackMax: real := 500.0
  const ReleaseMin: real := 50.0
  const ReleaseMax: real := 2000.0
  const ToleranceMin: real := 0.1
  const ToleranceMax: real := 3.0
  const LatencyOffsetMin: int := 0
  const LatencyOffsetMax: int := 48000
  /** The pair ID parameter is an integer in 1..16. */
  const PairIdMin: int := 1
  const PairIdMax: int := 16

  /** Which side of the pair protocol an instance plays. */
  datatype InstanceMode = Before | After

  /** Whether levels are compared by RMS or by held peak. */
  datatype MeasurementMode = Rms | Peak

  /**
   * The RMS window choice.  `Unlisted` stands for an enum value outside the three named
   * ones, which the conversion's `default` branch handles.
   */
  datatype RmsWindow = Ms50 | Ms100 | Ms300 | Unlisted(code: int)

  function InstanceModeIndex(m: InstanceMode): int
  {
    match m
    case Before => 0
    case After => 1
  }

  /**
   * The processor casts the choice index to the enum and only ever compares it with
   * `Before`, so every index other than 0 behaves as `After`.
   */
  function InstanceModeFromIndex(i: int): (m: InstanceMode)
    ensures m == Before <==> i == 0
  {
    if i == 0 then Before else After
  }

  function MeasurementModeIndex(m: MeasurementMode): int
  {
    match m
    case Rms => 0
    case Peak => 1
  }

  /** The processor only compares the cast index with `RMS`; any other index selects peak levels. */
  function MeasurementModeFromIndex(i: int): (m: MeasurementMode)
    ensures m == Rms <==> i == 0
  {
    if i == 0 then Rms else Peak
  }

  function RmsWindowIndex(w: RmsWindow): int
  {
    match w
    case Ms50 => 0
    case Ms100 => 1
    case Ms300 => 2
    case Unlisted(c) => c
  }

  function RmsWindowFromIndex(i: int): (w: RmsWindow)
    ensures RmsWindowIndex(w) == i
  {
    if i == 0 then Ms50 else if i == 1 then Ms100 else if i == 2 then Ms300 else Unlisted(i)
  }

  /** The encodings are Before=0/After=1, RMS=0/Peak=1, Ms50=0/Ms100=1/Ms300=2, and decoding inverts them. */
  lemma EncodingsRoundTrip(m: InstanceMode, mm: MeasurementMode, w: RmsWindow)
    requires !w.Unlisted?
    ensures InstanceModeFromIndex(InstanceModeIndex(m)) == m
    ensures MeasurementModeFromIndex(MeasurementModeIndex(mm)) == mm
    ensures RmsWindowFromIndex(RmsWindowIndex(w)) == w
    ensures InstanceModeIndex(Before) == 0 && InstanceModeIndex(After) == 1
    ensures MeasurementModeIndex(Rms) == 0 && MeasurementModeIndex(Peak) == 1
    ensures RmsWindowIndex(Ms50) == 0 && RmsWindowIndex(Ms100) == 1 && RmsWindowIndex(Ms300) == 2
  {
  }

  /** The length of each window choice in seconds; a value outside the enum means 100 ms. */
  function WindowSeconds(w: RmsWindow): real
  {
    match w
    case Ms50 => 0.050
    case Ms300 => 0.300
    case _ => 0.100
  }

  /**
   * `rmsWindowToSamples`: for a non-negative rate, the whole number of samples that fit in
   * the chosen window (the `static_cast<int>` truncates the fraction away); a negative rate
   * gives no positive count.
   */
  function RmsWindowToSamples(w: RmsWindow, sampleRate: real): (n: int)
    ensures sampleRate >= 0.0 ==> 0 <= n && n as real <= sampleRate * WindowSeconds(w) < n as real + 1.0
    ensures sampleRate < 0.0 ==> n <= 0
  {
    match w
    case Ms50 => Trunc(sampleRate * 0.050)
    case Ms100 => Trunc(sampleRate * 0.100)
    case Ms300 => Trunc(sampleRate * 0.300)
    case Unlisted(_) => Trunc(sampleRate * 0.100)
  }

  /** For a non-negative sample rate the windows are non-negative and ordered 50 <= 100 <= 300 ms. */
  lemma RmsWindowsOrdered(sampleRate: real)
    requires sampleRate >= 0.0
    ensures 0 <= RmsWindowToSamples(Ms50, sampleRate)
    ensures RmsWindowToSamples(Ms50, sampleRate) <= RmsWindowToSamples(Ms100, sampleRate)
    ensures RmsWindowToSamples(Ms100, sampleRate) <= RmsWindowToSamples(Ms300, sampleRate)
  {
    TruncMonotone(sampleRate * 0.050, sampleRate * 0.100);
    TruncMonotone(sampleRate * 0.100, sampleRate * 0.300);
  }

  /** At 48 kHz the windows are 2400, 4800 and 14400 samples. */
  lemma RmsWindowsAt48k()
    ensures RmsWindowToSamples(Ms50, 48000.0) == 2400
    ensures RmsWindowToSamples(Ms100, 48000.0) == 4800
    ensures RmsWindowToSamples(Ms300, 48000.0) == 14400
  {
  }

  /**
   * The current value of every parameter the core reads.  `mode` and `pairId` are
   * `Option`s because the processor falls back to Before and 1 when those parameters
   * are missing; the rest are read unconditionally.
   */
  datatype Params = Params(
    mode: Option<int>,
    pairId: Option<int>,
    inputGaindB: real,
    outputGaindB: real,
    bypass: bool,
    measurementMode: int,
    rmsWindow: int,
    attackMs: real,
    releaseMs: real,
    tolerance: real,
    deltaEnabled: bool,
    deltaGaindB: real,
    deltaSolo: bool,
    listenBefore: bool,
    latencyOffset: int)

  datatype Option<T> = None | Some(value: T)

  /** Every parameter lies in the range its declaration gives it. */
  predicate InRange(p: Params)
  {
    && (p.mode.Some? ==> 0 <= p.mode.value <= 1)
    && (p.pairId.Some? ==> PairIdMin <= p.pairId.value <= PairIdMax)
    && GainMin <= p.inputGaindB <= GainMax
    && GainMin <= p.outputGaindB <= GainMax
    && 0 <= p.measurementMode <= 1
    && 0 <= p.rmsWindow <= 2
    && AttackMin <= p.attackMs <= AttackMax
    && ReleaseMin <= p.releaseMs <= ReleaseMax
    && ToleranceMin <= p.tolerance <= ToleranceMax
    && GainMin <= p.deltaGaindB <= GainMax
    && LatencyOffsetMin <= p.latencyOffset <= LatencyOffsetMax
  }

  /** The parameter defaults: Before mode, pair 1, 0 dB trims, RMS over 100 ms, 50/200 ms smoothing, 0.5 dB tolerance. */
  const Defaults: Params := Params(
    mode := Some(0), pairId := Some(1),
    inputGaindB := 0.0, outputGaindB := 0.0, bypass := false,
    measurementMode := 0, rmsWindow := 1,
    attackMs := 50.0, releaseMs := 200.0, tolerance := 0.5,
    deltaEnabled := false, deltaGaindB := 0.0, deltaSolo := false,
    listenBefore := false, latencyOffset := 0)

  lemma DefaultsInRange()
    ensures InRange(Defaults)
    ensures InstanceModeFromIndex(Defaults.mode.value) == Before
    ensures RmsWindowFromIndex(Defaults.rmsWindow) == Ms100
  {
  }
}
