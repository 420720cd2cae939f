/**
 * The per-block orchestration of the plug-in (PluginProcessor.h / PluginProcessor.cpp).
 *
 * One processor plays one side of a pair.  In Before mode it publishes each block to the
 * registry slot of its pair ID and measures it.  In After mode it reads the reference
 * block back from that slot, measures both sides, and steers a smoothed compensation gain
 * toward the level difference.  It then routes the audio: listen to the reference, listen
 * to (or only measure) the difference, or apply the compensation.
 *
 * The host's parameter tree is a `Params` snapshot held in `params`.  The clock is a `now`
 * parameter in milliseconds.  The process-wide registry singleton is the `registry`
 * object handed to the constructor.  The atomics holding the telemetry are plain fields.
 */
module Processor {
  import opened Ring
  import opened Numerics
  import opened Audio
  import opened Parameters
  import opened SharedBuffer
  import opened Analysis

  /** Trims smaller than this many dB (in magnitude) are skipped. */
  const TrimThresholdDb: real := 0.001
  /** The compensation target is clamped to plus or minus this many dB. */
  const MaxCompensationDb: real := 40.0
  /** A smoothed compensation beyond this many dB (in magnitude) raises the warning. */
  const WarningDb: real := 10.0

  // ---------------------------------------------------------------------------
  // Parameter reads.

  /** `getInstanceMode`: the mode choice cast to the enum, or Before when the parameter is missing. */
  function ModeOf(p: Params): InstanceMode
  {
    if p.mode.Some? then InstanceModeFromIndex(p.mode.value) else Before
  }

  /** `getPairID`: the pair ID parameter, or 1 when the parameter is missing. */
  function PairIdOf(p: Params): int
  {
    if p.pairId.Some? then p.pairId.value else 1
  }

  /**
   * A missing mode parameter means Before and a missing pair ID means pair 1; only choice
   * index 0 selects Before.  Every in-range pair ID, and the fallback, names a registry slot.
   */
  lemma ParameterFallbacks(p: Params)
    ensures p.mode.None? ==> ModeOf(p) == Before
    ensures p.pairId.None? ==> PairIdOf(p) == 1
    ensures ModeOf(p) == Before <==> p.mode.None? || p.mode.value == 0
    ensures p.pairId.Some? ==> PairIdOf(p) == p.pairId.value
    ensures InRange(p) ==> ValidPairId(PairIdOf(p))
    ensures PairIdMax == MaxPairIds
  {
  }

  // ---------------------------------------------------------------------------
  // Per-sample rules.

  /** Output channels beyond the input channels are silenced before anything else. */
  function Cleared(numInputs: int, numOutputs: int, ch: int, x: real): real
  {
    if numInputs <= ch < numOutputs then 0.0 else x
  }

  /** An input or output trim: applied only when it exceeds 0.001 dB in magnitude. */
  function Trim(m: Math, gaindB: real, x: real): real
    requires Lawful(m)
  {
    if Abs(gaindB) > TrimThresholdDb then x * DecibelsToGain(m, gaindB) else x
  }

  /** `Trim` on every sample of a block. */
  ghost function TrimBlock(m: Math, gaindB: real, b: seq<seq<real>>): (r: seq<seq<real>>)
    requires Lawful(m)
    ensures |r| == |b| && forall c :: 0 <= c < |b| ==> |r[c]| == |b[c]|
  {
    seq(|b|, c requires 0 <= c < |b| => seq(|b[c]|, i requires 0 <= i < |b[c]| => Trim(m, gaindB, b[c][i])))
  }

  /** `Cleared` on every sample of a block. */
  ghost function ClearedBlock(numInputs: int, numOutputs: int, b: seq<seq<real>>): (r: seq<seq<real>>)
    ensures |r| == |b| && forall c :: 0 <= c < |b| ==> |r[c]| == |b[c]|
  {
    seq(|b|, c requires 0 <= c < |b| => seq(|b[c]|, i requires 0 <= i < |b[c]| => Cleared(numInputs, numOutputs, c, b[c][i])))
  }

  /**
   * The reference block once After mode has sized it for a block of `channels` channels of
   * `samples` samples: a silent block of that shape when it held fewer samples (`setSize`
   * without kept content, clearing the space), otherwise exactly as it was.
   */
  ghost function SizedReference(ref: seq<seq<real>>, refSamples: int, channels: nat, samples: nat): seq<seq<real>>
  {
    if refSamples < samples then Silence(channels, samples) else ref
  }

  /**
   * A trim within 0.001 dB of zero leaves the sample exactly as it was; a larger trim
   * scales it by the trim's linear gain, which silences it at or below -100 dB and keeps
   * its sign above; silence stays silent under any trim.
   */
  lemma TrimRule(m: Math, gaindB: real, x: real)
    requires Lawful(m)
    ensures Abs(gaindB) <= TrimThresholdDb ==> Trim(m, gaindB, x) == x
    ensures Abs(gaindB) > TrimThresholdDb ==> Trim(m, gaindB, x) == x * DecibelsToGain(m, gaindB)
    ensures gaindB <= -100.0 ==> Trim(m, gaindB, x) == 0.0
    ensures gaindB > -100.0 && x > 0.0 ==> Trim(m, gaindB, x) > 0.0
    ensures gaindB > -100.0 && x < 0.0 ==> Trim(m, gaindB, x) < 0.0
    ensures Trim(m, gaindB, 0.0) == 0.0
  {
    var g := DecibelsToGain(m, gaindB);
    if x > 0.0 && g > 0.0 {
      MulPositive(x, g);
    } else if x < 0.0 && g > 0.0 {
      MulPositive(-x, g);
    }
  }

  /** The level a measurement mode reads: both sides use RMS, or both use the held peak. */
  function SelectedLevel(m: Math, mode: MeasurementMode, a: GainAnalyzer): real
    requires Lawful(m)
    reads a
  {
    if mode == Rms then a.GetRMSdB(m) else a.GetPeakdB(m)
  }

  /** Compensation is armed when the levels differ by more than the tolerance and the pair is live. */
  function ShouldCompensate(beforedB: real, afterdB: real, tolerance: real, paired: bool): bool
  {
    Abs(beforedB - afterdB) > tolerance && paired
  }

  /** The gain the smoother is steered toward: the level difference when armed, else 0 dB, clamped to 40 dB either way. */
  function Target(beforedB: real, afterdB: real, compensate: bool): (r: real)
    ensures -MaxCompensationDb <= r <= MaxCompensationDb
    ensures !compensate ==> r == 0.0
    ensures compensate && Abs(beforedB - afterdB) <= MaxCompensationDb ==> r == beforedB - afterdB
    ensures compensate && Abs(beforedB - afterdB) > MaxCompensationDb ==> Abs(r) == MaxCompensationDb
  {
    LimitReal(-MaxCompensationDb, MaxCompensationDb, if compensate then beforedB - afterdB else 0.0)
  }

  /**
   * The target never leaves [-40, 40] dB.  Without a live partner, or with levels already
   * within tolerance, it is 0 dB.  When armed it is the level difference itself as long as
   * that lies within 40 dB, and the nearer bound otherwise.
   */
  lemma GateAndTarget(beforedB: real, afterdB: real, tolerance: real, paired: bool)
    ensures -MaxCompensationDb <= Target(beforedB, afterdB, ShouldCompensate(beforedB, afterdB, tolerance, paired)) <= MaxCompensationDb
    ensures !paired ==> !ShouldCompensate(beforedB, afterdB, tolerance, paired)
    ensures Abs(beforedB - afterdB) <= tolerance ==> !ShouldCompensate(beforedB, afterdB, tolerance, paired)
    ensures !ShouldCompensate(beforedB, afterdB, tolerance, paired) ==>
      Target(beforedB, afterdB, ShouldCompensate(beforedB, afterdB, tolerance, paired)) == 0.0
    ensures ShouldCompensate(beforedB, afterdB, tolerance, paired) && Abs(beforedB - afterdB) <= MaxCompensationDb ==>
      Target(beforedB, afterdB, true) == beforedB - afterdB
    ensures beforedB - afterdB > MaxCompensationDb ==> Target(beforedB, afterdB, true) == MaxCompensationDb
    ensures beforedB - afterdB < -MaxCompensationDb ==> Target(beforedB, afterdB, true) == -MaxCompensationDb
  {
  }

  /**
   * The smoothed compensation stays within [-40, 40] dB: a step from inside the range
   * toward any target lands between the old value and the target, both inside it.
   */
  lemma CompensationStaysInRange(current: real, target: real, attack: real, release: real)
    requires -MaxCompensationDb <= current <= MaxCompensationDb
    requires -MaxCompensationDb <= target <= MaxCompensationDb
    requires 0.0 <= attack <= 1.0 && 0.0 <= release <= 1.0
    ensures -MaxCompensationDb <= SmoothStep(current, target, attack, release) <= MaxCompensationDb
  {
    SmoothStepContracts(current, target, attack, release);
  }

  /** Where After-mode audio comes from. */
  datatype Route =
    | ListenBefore   // the reference block replaces the audio
    | DeltaSolo      // the scaled difference replaces the audio
    | DeltaMonitor   // the difference is measured, the audio is compensated
    | Compensate     // the audio is compensated

  /** Listen-before wins over the delta switches, which win over plain compensation. */
  function RouteOf(listenBefore: bool, deltaEnabled: bool, deltaSolo: bool): Route
  {
    if listenBefore then ListenBefore
    else if deltaEnabled || deltaSolo then (if deltaSolo then DeltaSolo else DeltaMonitor)
    else Compensate
  }

  /** Whether a route measures the difference block. */
  predicate MeasuresDelta(r: Route)
  {
    r.DeltaSolo? || r.DeltaMonitor?
  }

  /** One output sample of a route, from the processed sample and the reference sample. */
  function RoutedSample(r: Route, after: real, before: real, deltaGain: real, compensationGain: real): real
  {
    match r
    case ListenBefore => before
    case DeltaSolo => (after - before) * deltaGain
    case DeltaMonitor => after * compensationGain
    case Compensate => after * compensationGain
  }

  /**
   * Listen-before overrides both delta switches; solo overrides delta-enabled; the
   * difference is measured exactly when listen-before is off and either delta switch is on;
   * and compensation applies exactly when neither listen-before nor solo is on.
   */
  lemma RoutingPriority(listenBefore: bool, deltaEnabled: bool, deltaSolo: bool)
    ensures listenBefore ==> RouteOf(listenBefore, deltaEnabled, deltaSolo) == ListenBefore
    ensures !listenBefore && deltaSolo ==> RouteOf(listenBefore, deltaEnabled, deltaSolo) == DeltaSolo
    ensures MeasuresDelta(RouteOf(listenBefore, deltaEnabled, deltaSolo)) <==> !listenBefore && (deltaEnabled || deltaSolo)
    ensures (forall a, b, g, c :: RoutedSample(RouteOf(listenBefore, deltaEnabled, deltaSolo), a, b, g, c) == a * c)
        <== !listenBefore && !deltaSolo
  {
  }

  /**
   * Once the levels match (within tolerance) and the smoother has settled at 0 dB, the
   * smoother stays at 0 dB and compensation passes the audio through unchanged.
   */
  lemma SettledCompensationIsTransparent(m: Math, beforedB: real, afterdB: real, tolerance: real, paired: bool,
                                         attack: real, release: real, x: real)
    requires Lawful(m)
    requires Abs(beforedB - afterdB) <= tolerance
    requires 0.0 <= attack <= 1.0 && 0.0 <= release <= 1.0
    ensures SmoothStep(0.0, Target(beforedB, afterdB, ShouldCompensate(beforedB, afterdB, tolerance, paired)), attack, release) == 0.0
    ensures RoutedSample(Compensate, x, 0.0, 0.0, DecibelsToGain(m, 0.0)) == x
  {
    GateAndTarget(beforedB, afterdB, tolerance, paired);
    SmoothStepContracts(0.0, 0.0, attack, release);
  }

  /** Every channel of `after` exists in `before`, and is no longer than its counterpart there. */
  ghost predicate Within(after: seq<seq<real>>, before: seq<seq<real>>)
  {
    |after| <= |before| && forall c :: 0 <= c < |after| ==> |after[c]| <= |before[c]|
  }

  /** The difference block, `(after - before) * gain` sample by sample, over the processed block's shape. */
  ghost function DeltaOf(after: seq<seq<real>>, before: seq<seq<real>>, gain: real): (d: seq<seq<real>>)
    requires Within(after, before)
    ensures |d| == |after|
    ensures forall c :: 0 <= c < |d| ==> |d[c]| == |after[c]|
    ensures forall c, i :: 0 <= c < |after| && 0 <= i < |after[c]| ==> d[c][i] == (after[c][i] - before[c][i]) * gain
  {
    seq(|after|, c requires 0 <= c < |after| => seq(|after[c]|, i requires 0 <= i < |after[c]| => (after[c][i] - before[c][i]) * gain))
  }

  /**
   * When the processed block equals the reference block, the difference block is silent,
   * and a difference measurement whose window fits in the block reads the -100 dB floor.
   */
  lemma MatchedBlocksMeasureFloor(m: Math, after: seq<seq<real>>, before: seq<seq<real>>, gain: real,
                                  history: seq<real>, start: int, window: nat)
    requires Lawful(m) && Within(after, before)
    requires forall c, i :: 0 <= c < |after| && 0 <= i < |after[c]| ==> after[c][i] == before[c][i]
    requires |after| >= 1 && 0 < |history|
    requires 1 <= window <= |Flatten(DeltaOf(after, before, gain))| <= |history|
    ensures forall k :: 0 <= k < |Flatten(DeltaOf(after, before, gain))| ==> Flatten(DeltaOf(after, before, gain))[k] == 0.0
    ensures LevelToDb(m, RootMeanSquare(m, WindowSum(RingWrite(history, start, |history|, Squares(Flatten(DeltaOf(after, before, gain)))),
                                          Cursor(start, |Flatten(DeltaOf(after, before, gain))|, |history|), window),
                             window, |after|))
         == FloorDb
  {
    var d := DeltaOf(after, before, gain);
    forall c, i | 0 <= c < |d| && 0 <= i < |d[c]|
      ensures d[c][i] == 0.0
    {
      assert d[c][i] == (after[c][i] - before[c][i]) * gain;
    }
    FlattenZeros(d);
    SilentSamplesReadFloor(m, history, start, Flatten(d), window, |after|);
  }

  // ---------------------------------------------------------------------------
  // Block operations.

  /** `AudioBuffer::applyGain`: every sample of every channel is scaled. */
  method ApplyGain(buffer: array2<real>, gain: real)
    modifies buffer
    ensures forall c, i :: 0 <= c < buffer.Length0 && 0 <= i < buffer.Length1 ==> buffer[c, i] == old(buffer[c, i]) * gain
  {
    var ch := 0;
    while ch < buffer.Length0
      invariant 0 <= ch <= buffer.Length0
      invariant forall c, i :: 0 <= c < buffer.Length0 && 0 <= i < buffer.Length1 ==>
        buffer[c, i] == if c < ch then old(buffer[c, i]) * gain else old(buffer[c, i])
    {
      var i := 0;
      while i < buffer.Length1
        invariant 0 <= i <= buffer.Length1
        invariant forall c, j :: 0 <= c < buffer.Length0 && 0 <= j < buffer.Length1 ==>
          buffer[c, j] == if c < ch || (c == ch && j < i) then old(buffer[c, j]) * gain else old(buffer[c, j])
      {
        buffer[ch, i] := buffer[ch, i] * gain;
        i := i + 1;
      }
      ch := ch + 1;
    }
  }

  /** A trim stage: the gain is applied only when the trim exceeds 0.001 dB in magnitude. */
  method ApplyTrim(m: Math, buffer: array2<real>, gaindB: real)
    requires Lawful(m)
    modifies buffer
    ensures forall c, i :: 0 <= c < buffer.Length0 && 0 <= i < buffer.Length1 ==> buffer[c, i] == Trim(m, gaindB, old(buffer[c, i]))
    ensures Block(buffer) == TrimBlock(m, gaindB, old(Block(buffer)))
  {
    ghost var before := Block(buffer);
    if Abs(gaindB) > TrimThresholdDb {
      ApplyGain(buffer, DecibelsToGain(m, gaindB));
    }
    forall c, i | 0 <= c < buffer.Length0 && 0 <= i < buffer.Length1
      ensures buffer[c, i] == TrimBlock(m, gaindB, before)[c][i]
    {
      assert before[c][i] == old(buffer[c, i]);
    }
    BlockIs(buffer, TrimBlock(m, gaindB, before));
  }

  /** `copyFrom` for every channel of `dest`: the first `dest.Length1` samples of each channel of `src`. */
  method CopyBlock(dest: array2<real>, src: array2<real>)
    requires dest != src
    requires dest.Length0 <= src.Length0 && dest.Length1 <= src.Length1
    modifies dest
    ensures forall c, i :: 0 <= c < dest.Length0 && 0 <= i < dest.Length1 ==> dest[c, i] == src[c, i]
  {
    var ch := 0;
    while ch < dest.Length0
      invariant 0 <= ch <= dest.Length0
      invariant forall c, i :: 0 <= c < ch && 0 <= i < dest.Length1 ==> dest[c, i] == src[c, i]
    {
      var i := 0;
      while i < dest.Length1
        invariant 0 <= i <= dest.Length1
        invariant forall c, j :: 0 <= c < ch && 0 <= j < dest.Length1 ==> dest[c, j] == src[c, j]
        invariant forall j :: 0 <= j < i ==> dest[ch, j] == src[ch, j]
      {
        dest[ch, i] := src[ch, i];
        i := i + 1;
      }
      ch := ch + 1;
    }
  }

  /**
   * The output of the delta branch: solo copies the difference block, delta-enabled alone
   * applies the compensation gain to the processed block.
   */
  method WriteDeltaRoute(buffer: array2<real>, delta: array2<real>, solo: bool, compensationGain: real)
    requires buffer != delta
    requires buffer.Length0 <= delta.Length0 && buffer.Length1 <= delta.Length1
    modifies buffer
    ensures forall c, i :: 0 <= c < buffer.Length0 && 0 <= i < buffer.Length1 ==>
      buffer[c, i] == if solo then delta[c, i] else old(buffer[c, i]) * compensationGain
  {
    if solo {
      CopyBlock(buffer, delta);
    } else {
      ApplyGain(buffer, compensationGain);
    }
  }

  /** The per-sample difference loop: a fresh block holding `(after - before) * gain`. */
  method MakeDelta(after: array2<real>, before: array2<real>, gain: real) returns (delta: array2<real>)
    requires after.Length0 <= before.Length0 && after.Length1 <= before.Length1
    ensures fresh(delta)
    ensures delta.Length0 == after.Length0 && delta.Length1 == after.Length1
    ensures forall c, i :: 0 <= c < after.Length0 && 0 <= i < after.Length1 ==> delta[c, i] == (after[c, i] - before[c, i]) * gain
    ensures Within(Block(after), Block(before)) && Block(delta) == DeltaOf(Block(after), Block(before), gain)
  {
    delta := new real[after.Length0, after.Length1];
    var ch := 0;
    while ch < after.Length0
      invariant 0 <= ch <= after.Length0
      invariant forall c, i :: 0 <= c < ch && 0 <= i < after.Length1 ==> delta[c, i] == (after[c, i] - before[c, i]) * gain
    {
      var i := 0;
      while i < after.Length1
        invariant 0 <= i <= after.Length1
        invariant forall c, j :: 0 <= c < ch && 0 <= j < after.Length1 ==> delta[c, j] == (after[c, j] - before[c, j]) * gain
        invariant forall j :: 0 <= j < i ==> delta[ch, j] == (after[ch, j] - before[ch, j]) * gain
      {
        delta[ch, i] := (after[ch, i] - before[ch, i]) * gain;
        i := i + 1;
      }
      ch := ch + 1;
    }
    assert Within(Block(after), Block(before));
    ghost var expected := DeltaOf(Block(after), Block(before), gain);
    forall c | 0 <= c < delta.Length0
      ensures Block(delta)[c] == expected[c]
    {
      assert Block(after)[c] == Row(after, c, after.Length1);
      assert Block(before)[c] == Row(before, c, before.Length1);
      forall i | 0 <= i < delta.Length1
        ensures Block(delta)[c][i] == expected[c][i]
      {
        assert Block(delta)[c] == Row(delta, c, delta.Length1);
      }
    }
  }

  /**
   * An analyser's `process` call as the processor relies on it: the analyser stays ready
   * and has measured `block` (what measuring does to its state is `GainAnalyzer.Process`'s contract).
   */
  method Measure(m: Math, analyzer: GainAnalyzer, block: array2<real>)
    requires analyzer.Ready() && Lawful(m) && block.Length0 >= 1
    modifies analyzer
    ensures analyzer.Ready() && analyzer.lastBlock == Block(block)
    ensures |analyzer.rmsBuffer| == |old(analyzer.rmsBuffer)| && analyzer.rmsWindowSamples == old(analyzer.rmsWindowSamples)
  {
    analyzer.Process(m, block);
  }

  /**
   * `dest` holds, in each of its first `channels` channels (as far as it has them), the `n`
   * samples of that channel of `ring` read from slot `start` onwards, stepping modulo `size`.
   */
  ghost predicate HoldsRead(dest: array2<real>, n: int, ring: seq<seq<real>>, channels: int, start: int, size: int)
    reads dest
  {
    && 0 < size && 0 <= n <= dest.Length1
    && MinInt(dest.Length0, channels) <= |ring|
    && (forall c :: 0 <= c < MinInt(dest.Length0, channels) ==> |ring[c]| >= size)
    && forall c, i :: 0 <= c < MinInt(dest.Length0, channels) && 0 <= i < n ==> dest[c, i] == ring[c][Cursor(start, i, size)]
  }

  // ---------------------------------------------------------------------------
  // The processor.

  class GainStageProcessor {
    var params: Params
    const registry: SharedBufferManager
    const numInputChannels: int
    const numOutputChannels: int
    var currentSampleRate: real
    var currentBlockSize: int

    const beforeAnalyzer: GainAnalyzer
    const afterAnalyzer: GainAnalyzer
    const deltaAnalyzer: GainAnalyzer
    const outputAnalyzer: GainAnalyzer
    const gainSmoother: GainSmoother

    var referenceBuffer: array2<real>

    var beforeLeveldB: real
    var afterLeveldB: real
    var gainReductiondB: real
    var deltaLeveldB: real
    var outputLeveldB: real
    var compensating: bool
    var clipping: bool

    /**
     * Four distinct well-formed analysers and a well-formed smoother.  The published gain
     * reduction is the smoother's value and lies within 40 dB of zero.  The clipping flag
     * is never raised.
     */
    ghost predicate Valid()
      reads this`gainReductiondB, this`clipping, beforeAnalyzer, afterAnalyzer, deltaAnalyzer, outputAnalyzer, gainSmoother
    {
      && 0 <= numInputChannels && 0 <= numOutputChannels
      && beforeAnalyzer != afterAnalyzer && beforeAnalyzer != deltaAnalyzer && beforeAnalyzer != outputAnalyzer
      && afterAnalyzer != deltaAnalyzer && afterAnalyzer != outputAnalyzer && deltaAnalyzer != outputAnalyzer
      && beforeAnalyzer.Valid() && afterAnalyzer.Valid() && deltaAnalyzer.Valid() && outputAnalyzer.Valid()
      && gainSmoother.Valid()
      && gainReductiondB == gainSmoother.currentGaindB
      && -MaxCompensationDb <= gainReductiondB <= MaxCompensationDb
      && !clipping
    }

    /**
     * Prepared for playback: every analyser can process, the smoother runs at a positive
     * rate and the reference block has a channel.
     */
    ghost predicate Ready()
      reads this`gainReductiondB, this`clipping, this`referenceBuffer, beforeAnalyzer, afterAnalyzer, deltaAnalyzer, outputAnalyzer, gainSmoother
    {
      && Valid()
      && beforeAnalyzer.Ready() && afterAnalyzer.Ready() && deltaAnalyzer.Ready() && outputAnalyzer.Ready()
      && gainSmoother.sampleRate > 0.0
      && referenceBuffer.Length0 >= 1
    }

    /**
     * A new processor on the given bus layout, sharing `registry`: parameters at their
     * defaults, four default analysers and a default smoother, an empty reference block,
     * all four level readings at -100 dB, no gain reduction, not compensating and not clipping.
     */
    constructor (registry: SharedBufferManager, numInputChannels: int, numOutputChannels: int)
      requires 0 <= numInputChannels && 0 <= numOutputChannels
      ensures Valid()
      ensures this.registry == registry
      ensures this.numInputChannels == numInputChannels && this.numOutputChannels == numOutputChannels
      ensures params == Defaults
      ensures currentSampleRate == 48000.0 && currentBlockSize == 512
      ensures beforeLeveldB == FloorDb && afterLeveldB == FloorDb && deltaLeveldB == FloorDb && outputLeveldB == FloorDb
      ensures gainReductiondB == 0.0 && !compensating && !clipping
      ensures fresh(beforeAnalyzer) && fresh(afterAnalyzer) && fresh(deltaAnalyzer) && fresh(outputAnalyzer)
      ensures fresh(gainSmoother) && fresh(referenceBuffer)
      ensures beforeAnalyzer.Defaulted() && afterAnalyzer.Defaulted() && deltaAnalyzer.Defaulted() && outputAnalyzer.Defaulted()
      ensures gainSmoother.Defaulted()
      ensures referenceBuffer.Length0 == 0 && referenceBuffer.Length1 == 0
    {
      params := Defaults;
      this.registry := registry;
      this.numInputChannels := numInputChannels;
      this.numOutputChannels := numOutputChannels;
      currentSampleRate := 48000.0;
      currentBlockSize := 512;
      beforeAnalyzer := new GainAnalyzer();
      afterAnalyzer := new GainAnalyzer();
      deltaAnalyzer := new GainAnalyzer();
      outputAnalyzer := new GainAnalyzer();
      gainSmoother := new GainSmoother();
      referenceBuffer := new real[0, 0];
      beforeLeveldB := FloorDb;
      afterLeveldB := FloorDb;
      gainReductiondB := 0.0;
      deltaLeveldB := FloorDb;
      outputLeveldB := FloorDb;
      compensating := false;
      clipping := false;
    }

    function GetInstanceMode(): (r: InstanceMode)
      reads this`params
      ensures r == Before <==> params.mode.None? || params.mode.value == 0
    {
      ModeOf(params)
    }

    function GetPairID(): (r: int)
      reads this`params
      ensures params.pairId.None? ==> r == 1
      ensures InRange(params) ==> ValidPairId(r)
    {
      PairIdOf(params)
    }

    function Routing(): Route
      reads this`params
    {
      RouteOf(params.listenBefore, params.deltaEnabled, params.deltaSolo)
    }

    /**
     * `isPaired`: a Before instance always counts as paired; an After instance is paired
     * exactly when its pair ID names a registry slot that is live at `now`.
     */
    function IsPaired(now: int): (r: bool)
      requires registry.Valid()
      reads this`params, registry, registry.buffers
      ensures GetInstanceMode() == Before ==> r
      ensures GetInstanceMode() == After ==>
        (r <==> ValidPairId(GetPairID())
                && Live(registry.Slot(GetPairID()).beforeInstanceActive, registry.Slot(GetPairID()).lastWriteTime, now))
    {
      GetInstanceMode() == Before || registry.IsBeforeInstanceActive(GetPairID(), now)
    }

    /**
     * An After instance whose clock has not gone backwards is paired only while its
     * partner's flag is set and less than 1000 ms have passed since the partner's last write.
     */
    lemma PairingExpires(now: int)
      requires registry.Valid()
      requires GetInstanceMode() == After && ValidPairId(GetPairID())
      requires 0 <= registry.Slot(GetPairID()).lastWriteTime <= now < Uint64Modulus
      ensures IsPaired(now) <==>
        registry.Slot(GetPairID()).beforeInstanceActive && now < registry.Slot(GetPairID()).lastWriteTime + StalenessMs
    {
    }

    function GetBeforeLeveldB(): real
      reads this
    {
      beforeLeveldB
    }

    function GetAfterLeveldB(): real
      reads this
    {
      afterLeveldB
    }

    function GetGainReductionDB(): real
      reads this
    {
      gainReductiondB
    }

    function GetDeltaLeveldB(): real
      reads this
    {
      deltaLeveldB
    }

    function GetOutputLeveldB(): real
      reads this
    {
      outputLeveldB
    }

    function IsCompensating(): bool
      reads this
    {
      compensating
    }

    /** `isClipping`: the flag is never raised, so this is always false. */
    function IsClipping(): (r: bool)
      requires Valid()
      reads this`gainReductiondB, this`clipping, beforeAnalyzer, afterAnalyzer, deltaAnalyzer, outputAnalyzer, gainSmoother
      ensures !r
    {
      clipping
    }

    /**
     * `isWarning`: the smoothed compensation exceeds 10 dB in magnitude, which (the
     * compensation being clamped) leaves it between 10 and 40 dB away from zero.
     */
    function IsWarning(): (r: bool)
      requires Valid()
      reads this`gainReductiondB, this`clipping, beforeAnalyzer, afterAnalyzer, deltaAnalyzer, outputAnalyzer, gainSmoother
      ensures r <==> gainReductiondB > WarningDb || gainReductiondB < -WarningDb
      ensures r ==> WarningDb < Abs(gainReductiondB) <= MaxCompensationDb
    {
      Abs(gainReductiondB) > WarningDb
    }

    /** The slot of this processor's pair ID can take a write of `channels` channels. */
    ghost predicate CanPublish(channels: int)
      requires registry.Valid()
      reads this`params, registry, registry.buffers
    {
      ValidPairId(GetPairID()) ==> registry.Slot(GetPairID()).Writable(channels)
    }

    /**
     * After mode can run on a block of `channels` channels: the reference block has at
     * least as many channels, and the pair's slot can be read into either shape.
     */
    ghost predicate CanFetch(channels: int)
      requires registry.Valid()
      reads this`params, this`referenceBuffer, registry, registry.buffers
    {
      && channels <= referenceBuffer.Length0
      && (ValidPairId(GetPairID()) ==>
            registry.Slot(GetPairID()).Readable(referenceBuffer.Length0) && registry.Slot(GetPairID()).Readable(channels))
    }

    /**
     * `processBlock`: silences the outputs beyond the inputs; with bypass on, stops there.
     * Otherwise applies the input trim and hands the block to the Before or After path.
     */
    method ProcessBlock(m: Math, buffer: array2<real>, now: int)
      requires Ready() && Lawful(m) && registry.Valid() && InRange(params)
      requires 1 <= buffer.Length0 && numOutputChannels <= buffer.Length0
      requires buffer != referenceBuffer
      requires 0 <= now < Uint64Modulus
      requires GetInstanceMode() == Before ==> CanPublish(buffer.Length0)
      requires GetInstanceMode() == After ==> CanFetch(buffer.Length0)
      modifies this`referenceBuffer, this`beforeLeveldB, this`afterLeveldB, this`compensating, this`gainReductiondB
      modifies this`deltaLeveldB, this`outputLeveldB
      modifies beforeAnalyzer, afterAnalyzer, deltaAnalyzer, outputAnalyzer, gainSmoother
      modifies buffer, referenceBuffer, registry.Footprint(GetPairID())
      ensures Ready() && registry.Valid()
      ensures params.bypass ==>
        && (forall c, i :: 0 <= c < buffer.Length0 && 0 <= i < buffer.Length1 ==>
              buffer[c, i] == Cleared(numInputChannels, numOutputChannels, c, old(buffer[c, i])))
        && unchanged(this, beforeAnalyzer, afterAnalyzer, deltaAnalyzer, outputAnalyzer, gainSmoother)
        && referenceBuffer == old(referenceBuffer) && unchanged(referenceBuffer)
        && unchanged(registry.Footprint(GetPairID()))
      ensures !params.bypass && GetInstanceMode() == Before ==>
        && BeforeModeBlock(m, buffer, ClearedBlock(numInputChannels, numOutputChannels, old(Block(buffer))), old(PairSlot()), now)
        && unchanged(afterAnalyzer, deltaAnalyzer, outputAnalyzer, gainSmoother)
        && referenceBuffer == old(referenceBuffer) && unchanged(referenceBuffer)
        && afterLeveldB == old(afterLeveldB) && deltaLeveldB == old(deltaLeveldB) && outputLeveldB == old(outputLeveldB)
        && gainReductiondB == old(gainReductiondB) && compensating == old(compensating)
      ensures !params.bypass && GetInstanceMode() == After ==>
        && AfterModeBlock(m, buffer,
                          TrimBlock(m, params.inputGaindB, ClearedBlock(numInputChannels, numOutputChannels, old(Block(buffer)))),
                          SizedReference(old(Block(referenceBuffer)), old(referenceBuffer.Length1), buffer.Length0, buffer.Length1),
                          old(PairSlot()), old(IsPaired(now)), old(gainSmoother.sampleRate), old(gainReductiondB), old(deltaLeveldB))
        && unchanged(registry.Footprint(GetPairID()))
    {
      ghost var slot, paired, reference := PairSlot(), IsPaired(now), Block(referenceBuffer);
      ClearExtraOutputs(buffer);
      assert PairSlot() == slot && IsPaired(now) == paired && Block(referenceBuffer) == reference;
      if params.bypass {
        return;
      }
      ProcessTrimmed(m, buffer, now);
    }

    /** The rest of a block that is not bypassed: the input trim, then the path of the instance's mode. */
    method ProcessTrimmed(m: Math, buffer: array2<real>, now: int)
      requires Ready() && Lawful(m) && registry.Valid() && InRange(params)
      requires 1 <= buffer.Length0
      requires buffer != referenceBuffer
      requires 0 <= now < Uint64Modulus
      requires GetInstanceMode() == Before ==> CanPublish(buffer.Length0)
      requires GetInstanceMode() == After ==> CanFetch(buffer.Length0)
      modifies this`referenceBuffer, this`beforeLeveldB, this`afterLeveldB, this`compensating, this`gainReductiondB
      modifies this`deltaLeveldB, this`outputLeveldB
      modifies beforeAnalyzer, afterAnalyzer, deltaAnalyzer, outputAnalyzer, gainSmoother
      modifies buffer, referenceBuffer, registry.Footprint(GetPairID())
      ensures Ready() && registry.Valid()
      ensures GetInstanceMode() == Before ==>
        && BeforeModeBlock(m, buffer, old(Block(buffer)), old(PairSlot()), now)
        && unchanged(afterAnalyzer, deltaAnalyzer, outputAnalyzer, gainSmoother)
        && referenceBuffer == old(referenceBuffer) && unchanged(referenceBuffer)
        && afterLeveldB == old(afterLeveldB) && deltaLeveldB == old(deltaLeveldB) && outputLeveldB == old(outputLeveldB)
        && gainReductiondB == old(gainReductiondB) && compensating == old(compensating)
      ensures GetInstanceMode() == After ==>
        && AfterModeBlock(m, buffer, TrimBlock(m, params.inputGaindB, old(Block(buffer))),
                          SizedReference(old(Block(referenceBuffer)), old(referenceBuffer.Length1), buffer.Length0, buffer.Length1),
                          old(PairSlot()), old(IsPaired(now)), old(gainSmoother.sampleRate), old(gainReductiondB), old(deltaLeveldB))
        && unchanged(registry.Footprint(GetPairID()))
    {
      if GetInstanceMode() == Before {
        TrimAndPublish(m, buffer, now);
      } else {
        TrimAndCompare(m, buffer, now);
      }
    }

    /** A Before-mode block: the input trim, then `processBeforeMode` on the trimmed block. */
    method TrimAndPublish(m: Math, buffer: array2<real>, now: int)
      requires Ready() && Lawful(m) && registry.Valid()
      requires 1 <= buffer.Length0 && buffer != referenceBuffer
      requires 0 <= now < Uint64Modulus
      requires CanPublish(buffer.Length0)
      modifies registry.Footprint(GetPairID()), beforeAnalyzer, this`beforeLeveldB, buffer
      ensures Ready() && registry.Valid()
      ensures BeforeModeBlock(m, buffer, old(Block(buffer)), old(PairSlot()), now)
      ensures unchanged(afterAnalyzer, deltaAnalyzer, outputAnalyzer, gainSmoother)
      ensures referenceBuffer == old(referenceBuffer) && unchanged(referenceBuffer)
      ensures afterLeveldB == old(afterLeveldB) && deltaLeveldB == old(deltaLeveldB) && outputLeveldB == old(outputLeveldB)
      ensures gainReductiondB == old(gainReductiondB) && compensating == old(compensating)
    {
      ApplyTrim(m, buffer, params.inputGaindB);
      ProcessBeforeMode(m, buffer, now);
    }

    /** An After-mode block: the input trim, then `processAfterMode` on the trimmed block. */
    method TrimAndCompare(m: Math, buffer: array2<real>, now: int)
      requires Ready() && Lawful(m) && registry.Valid() && InRange(params)
      requires 1 <= buffer.Length0 && buffer != referenceBuffer
      requires 0 <= now < Uint64Modulus
      requires CanFetch(buffer.Length0)
      modifies this`referenceBuffer, this`beforeLeveldB, this`afterLeveldB, this`compensating, this`gainReductiondB
      modifies this`deltaLeveldB, this`outputLeveldB
      modifies beforeAnalyzer, afterAnalyzer, deltaAnalyzer, outputAnalyzer, gainSmoother, buffer, referenceBuffer
      ensures Ready() && registry.Valid()
      ensures AfterModeBlock(m, buffer, TrimBlock(m, params.inputGaindB, old(Block(buffer))),
                          SizedReference(old(Block(referenceBuffer)), old(referenceBuffer.Length1), buffer.Length0, buffer.Length1),
                          old(PairSlot()), old(IsPaired(now)), old(gainSmoother.sampleRate), old(gainReductiondB), old(deltaLeveldB))
      ensures unchanged(registry.Footprint(GetPairID()))
    {
      ghost var slot, paired, reference := PairSlot(), IsPaired(now), Block(referenceBuffer);
      ghost var footprint := registry.Footprint(GetPairID());
      ApplyTrim(m, buffer, params.inputGaindB);
      assert PairSlot() == slot && IsPaired(now) == paired && Block(referenceBuffer) == reference;
      ProcessAfterMode(m, buffer, now);
      assert registry.Footprint(GetPairID()) == footprint;
    }

    /** The channel-clearing loop at the head of `processBlock`. */
    method ClearExtraOutputs(buffer: array2<real>)
      requires 0 <= numInputChannels && numOutputChannels <= buffer.Length0
      requires buffer != referenceBuffer
      modifies buffer
      ensures unchanged(this, registry, referenceBuffer, beforeAnalyzer, afterAnalyzer, deltaAnalyzer, outputAnalyzer, gainSmoother)
      ensures unchanged(registry.buffers)
      ensures forall c, i :: 0 <= c < buffer.Length0 && 0 <= i < buffer.Length1 ==>
        buffer[c, i] == Cleared(numInputChannels, numOutputChannels, c, old(buffer[c, i]))
      ensures Block(buffer) == ClearedBlock(numInputChannels, numOutputChannels, old(Block(buffer)))
    {
      ghost var before := Block(buffer);
      var ch := numInputChannels;
      while ch < numOutputChannels
        invariant numInputChannels <= ch
        invariant ch <= numOutputChannels || ch == numInputChannels
        invariant forall c, i :: 0 <= c < buffer.Length0 && 0 <= i < buffer.Length1 ==>
          buffer[c, i] == if numInputChannels <= c < ch then 0.0 else old(buffer[c, i])
      {
        var i := 0;
        while i < buffer.Length1
          invariant 0 <= i <= buffer.Length1
          invariant forall c, j :: 0 <= c < buffer.Length0 && 0 <= j < buffer.Length1 ==>
            buffer[c, j] == if (numInputChannels <= c < ch) || (c == ch && j < i) then 0.0 else old(buffer[c, j])
        {
          buffer[ch, i] := 0.0;
          i := i + 1;
        }
        ch := ch + 1;
      }
      forall c, i | 0 <= c < buffer.Length0 && 0 <= i < buffer.Length1
        ensures buffer[c, i] == ClearedBlock(numInputChannels, numOutputChannels, before)[c][i]
      {
        assert before[c][i] == old(buffer[c, i]);
      }
      BlockIs(buffer, ClearedBlock(numInputChannels, numOutputChannels, before));
    }

    /**
     * `processBeforeMode`: publishes the block to the pair's slot (which becomes live at
     * `now`), measures it, and stores its RMS reading as the before level.  The audio
     * itself is not touched.
     */
    method ProcessBeforeMode(m: Math, buffer: array2<real>, now: int)
      requires Ready() && Lawful(m) && registry.Valid()
      requires buffer.Length0 >= 1 && 0 <= now < Uint64Modulus
      requires CanPublish(buffer.Length0)
      modifies registry.Footprint(GetPairID()), beforeAnalyzer, this`beforeLeveldB
      ensures Ready() && registry.Valid()
      ensures unchanged(buffer)
      ensures ValidPairId(GetPairID()) ==>
        registry.Slot(GetPairID()).Wrote(old(registry.Slot(GetPairID()).State()), buffer, buffer.Length1, now) && registry.IsBeforeInstanceActive(GetPairID(), now)
      ensures beforeAnalyzer.lastBlock == Block(buffer)
      ensures beforeLeveldB == beforeAnalyzer.GetRMSdB(m)
    {
      PublishBlock(buffer, now);
      label published:
      MeasureBefore(m, buffer);
      assert unchanged@published(registry.Footprint(GetPairID()));
    }

    /** The measurement half of `processBeforeMode`: the block is measured and its RMS reading published. */
    method MeasureBefore(m: Math, buffer: array2<real>)
      requires Ready() && Lawful(m)
      requires buffer.Length0 >= 1
      modifies beforeAnalyzer, this`beforeLeveldB
      ensures Ready()
      ensures beforeAnalyzer.lastBlock == Block(buffer)
      ensures beforeLeveldB == beforeAnalyzer.GetRMSdB(m)
    {
      Measure(m, beforeAnalyzer, buffer);
      beforeLeveldB := beforeAnalyzer.GetRMSdB(m);
    }

    /** The `writeSamples` call of `processBeforeMode`: the whole block goes to the pair's slot. */
    method PublishBlock(buffer: array2<real>, now: int)
      requires registry.Valid()
      requires 0 <= now < Uint64Modulus
      requires CanPublish(buffer.Length0)
      modifies registry.Footprint(GetPairID())
      ensures registry.Valid()
      ensures ValidPairId(GetPairID()) ==>
        registry.Slot(GetPairID()).Wrote(old(registry.Slot(GetPairID()).State()), buffer, buffer.Length1, now) && registry.IsBeforeInstanceActive(GetPairID(), now)
    {
      registry.WriteSamples(GetPairID(), buffer, buffer.Length1, now);
    }

    /**
     * `processAfterMode`: the six stages of an After-mode block.  The audio ends up as the
     * routed sample under the output trim; each analyser has measured its block; the levels,
     * the gate and the smoothed gain are published.
     */
    method ProcessAfterMode(m: Math, buffer: array2<real>, now: int)
      requires Ready() && Lawful(m) && registry.Valid() && InRange(params)
      requires buffer.Length0 >= 1 && buffer != referenceBuffer
      requires 0 <= now < Uint64Modulus
      requires CanFetch(buffer.Length0)
      modifies this`referenceBuffer, this`beforeLeveldB, this`afterLeveldB, this`compensating, this`gainReductiondB
      modifies this`deltaLeveldB, this`outputLeveldB
      modifies beforeAnalyzer, afterAnalyzer, deltaAnalyzer, outputAnalyzer, gainSmoother, buffer, referenceBuffer
      ensures Ready() && registry.Valid()
      ensures AfterModeBlock(m, buffer, old(Block(buffer)), SizedReference(old(Block(referenceBuffer)), old(referenceBuffer.Length1), buffer.Length0, buffer.Length1),
                             old(PairSlot()), old(IsPaired(now)), old(gainSmoother.sampleRate), old(gainReductiondB), old(deltaLeveldB))
    {
      ghost var sized := SizedReference(Block(referenceBuffer), referenceBuffer.Length1, buffer.Length0, buffer.Length1);
      ghost var slot := PairSlot();
      ConfigureAndFetch(m, buffer);
      AnalyseAndRender(m, buffer, now, sized, slot);
    }

    /** Stages 3 to 6 of `processAfterMode`, once the reference block has been read. */
    method AnalyseAndRender(m: Math, buffer: array2<real>, now: int, ghost sized: seq<seq<real>>, ghost slot: SlotState)
      requires Ready() && Lawful(m) && registry.Valid()
      requires buffer.Length0 >= 1 && buffer != referenceBuffer
      requires buffer.Length0 <= referenceBuffer.Length0 && buffer.Length1 <= referenceBuffer.Length1
      requires ReferenceReadOver(sized, buffer.Length1, slot) && Configured(m, gainSmoother.sampleRate)
      modifies this`beforeLeveldB, this`afterLeveldB, this`compensating, this`gainReductiondB
      modifies this`deltaLeveldB, this`outputLeveldB
      modifies beforeAnalyzer, afterAnalyzer, deltaAnalyzer, outputAnalyzer, gainSmoother`currentGaindB, buffer
      ensures Ready() && registry.Valid()
      ensures AfterModeBlock(m, buffer, old(Block(buffer)), sized, slot, old(IsPaired(now)), old(gainSmoother.sampleRate), old(gainReductiondB), old(deltaLeveldB))
    {
      MeasureAndCompensate(m, buffer, now);
      RenderOutput(m, buffer);
    }

    /** Stages 1 and 2 of `processAfterMode`: configuration, then the reference read. */
    method ConfigureAndFetch(m: Math, buffer: array2<real>)
      requires Ready() && Lawful(m) && registry.Valid() && InRange(params)
      requires buffer.Length0 >= 1 && buffer != referenceBuffer
      requires CanFetch(buffer.Length0)
      modifies this`referenceBuffer, beforeAnalyzer, afterAnalyzer, gainSmoother, referenceBuffer
      ensures Ready() && registry.Valid()
      ensures buffer != referenceBuffer
      ensures buffer.Length0 <= referenceBuffer.Length0 && buffer.Length1 <= referenceBuffer.Length1
      ensures ReferenceReadOver(SizedReference(old(Block(referenceBuffer)), old(referenceBuffer.Length1), buffer.Length0, buffer.Length1), buffer.Length1, old(PairSlot()))
      ensures Configured(m, old(gainSmoother.sampleRate))
    {
      ConfigureAfterBlock(m);
      FetchReference(buffer);
    }

    /** Stages 3 and 4 of `processAfterMode`: both measurements, then the gate and the gain update. */
    method MeasureAndCompensate(m: Math, buffer: array2<real>, now: int)
      requires Ready() && Lawful(m) && registry.Valid()
      requires buffer.Length0 >= 1
      modifies this`beforeLeveldB, this`afterLeveldB, this`compensating, this`gainReductiondB
      modifies beforeAnalyzer, afterAnalyzer, gainSmoother`currentGaindB
      ensures Ready()
      ensures old(Configured(m, gainSmoother.sampleRate)) ==> Configured(m, old(gainSmoother.sampleRate))
      ensures Compensated(m, old(Block(buffer)), old(gainReductiondB), old(IsPaired(now)))
    {
      MeasureLevels(m, buffer);
      UpdateCompensation(now);
    }

    /** Stages 5 and 6 of `processAfterMode`: routing, then the output trim and measurement. */
    method RenderOutput(m: Math, buffer: array2<real>)
      requires Ready() && Lawful(m)
      requires buffer.Length0 >= 1 && buffer != referenceBuffer
      requires buffer.Length0 <= referenceBuffer.Length0 && buffer.Length1 <= referenceBuffer.Length1
      modifies buffer, deltaAnalyzer, outputAnalyzer, this`deltaLeveldB, this`outputLeveldB
      ensures Ready()
      ensures Rendered(m, buffer, old(Block(buffer)), old(deltaLeveldB))
    {
      label routing:
      RouteAudio(m, buffer);
      label trimming:
      FinishOutput(m, buffer);
      forall c, i | 0 <= c < buffer.Length0 && 0 <= i < buffer.Length1
        ensures buffer[c, i] ==
          Trim(m, params.outputGaindB,
               RoutedSample(Routing(), old(buffer[c, i]), referenceBuffer[c, i],
                            DecibelsToGain(m, params.deltaGaindB), DecibelsToGain(m, gainReductiondB)))
      {
        assert old@trimming(buffer[c, i]) ==
          RoutedSample(Routing(), old@routing(buffer[c, i]), referenceBuffer[c, i],
                       DecibelsToGain(m, params.deltaGaindB), DecibelsToGain(m, gainReductiondB));
      }
    }

    /**
     * The reference block holds what the pair's slot returns for a read of `n` samples at
     * the current latency offset, for every channel both have.
     */
    ghost predicate ReferenceFromSlot(n: int)
      requires registry.Valid()
      reads this`params, this`referenceBuffer, registry, registry.buffers, referenceBuffer
    {
      ValidPairId(GetPairID()) ==>
        && registry.Slot(GetPairID()).Readable(referenceBuffer.Length0)
        && HoldsRead(referenceBuffer, n, registry.Slot(GetPairID()).channelBuffers, registry.Slot(GetPairID()).numChannels,
                     SlotReadStart(n), registry.Slot(GetPairID()).bufferSize)
    }

    /**
     * The whole reference block is `base` after a read of `n` samples from the pair's slot,
     * which held `slot`, at the current latency offset: the channels both have take the delayed samples in
     * their first `n` positions and every other sample keeps its value in `base`.  With a
     * pair ID outside 1..16 the block is `base`.
     */
    ghost predicate ReferenceReadOver(base: seq<seq<real>>, n: int, slot: SlotState)
      reads this`params, this`referenceBuffer, referenceBuffer
    {
      if ValidPairId(GetPairID()) then
        && slot.Gives(|base|) && 0 <= n <= referenceBuffer.Length1
        && (forall ch :: 0 <= ch < |base| ==> n <= |base[ch]|)
        && Block(referenceBuffer) ==
             ReadInto(base, slot.channelBuffers, MinInt(|base|, slot.numChannels),
                      ReadStart(slot.writePosition, n, params.latencyOffset, slot.bufferSize), slot.bufferSize, n)
      else
        Block(referenceBuffer) == base
    }

    /**
     * Stage 1 of After mode has configured this block: both sides' RMS windows are the
     * chosen window at the current rate, clamped to their histories, and the smoother, still
     * at sample rate `rate`, runs on the attack and release parameters, its coefficients
     * recomputed from them at that rate.
     */
    ghost predicate Configured(m: Math, rate: real)
      requires Lawful(m) && gainSmoother.Valid() && gainSmoother.sampleRate > 0.0
      reads this`params, this`currentSampleRate, beforeAnalyzer, afterAnalyzer, gainSmoother
    {
      && gainSmoother.sampleRate == rate
      && beforeAnalyzer.rmsWindowSamples == LimitInt(1, |beforeAnalyzer.rmsBuffer|, WindowSamples())
      && afterAnalyzer.rmsWindowSamples == LimitInt(1, |afterAnalyzer.rmsBuffer|, WindowSamples())
      && gainSmoother.attackMs == params.attackMs && gainSmoother.releaseMs == params.releaseMs
      && gainSmoother.attackCoeff == Coefficient(m, gainSmoother.sampleRate, params.attackMs)
      && gainSmoother.releaseCoeff == Coefficient(m, gainSmoother.sampleRate, params.releaseMs)
    }

    /**
     * The state an After-mode block leaves when the processed block held `incoming`, the
     * reference block held `sized` once sized for it, the pair's slot held `slot`, the
     * pairing check answered `paired`, the smoother ran at sample rate `rate`, and `gain`
     * and `deltadB` were the published gain reduction and delta level before it: the
     * reference is `sized` with the pair's delayed samples read into it, stage 1 has
     * configured the windows and the smoother from the parameters at the unchanged rate,
     * and stages 3 to 6 have measured, compensated and rendered.
     */
    ghost predicate AfterModeBlock(m: Math, buffer: array2<real>, incoming: seq<seq<real>>, sized: seq<seq<real>>,
                                   slot: SlotState, paired: bool, rate: real, gain: real, deltadB: real)
      requires Ready() && Lawful(m)
      reads this, beforeAnalyzer, afterAnalyzer, deltaAnalyzer, outputAnalyzer, gainSmoother, buffer, referenceBuffer
    {
      && ReferenceReadOver(sized, buffer.Length1, slot)
      && Configured(m, rate)
      && Compensated(m, incoming, gain, paired)
      && Rendered(m, buffer, incoming, deltadB)
    }

    /**
     * Stages 3 and 4 of After mode, for a processed block `incoming` and a gain reduction
     * `gain` before it, with the pairing check answering `paired`: the before analyser
     * measured the whole reference and the after analyser `incoming`; the two levels are
     * the selected readings; the gate is published
     * and the gain reduction is one smoothing step from `gain` toward the clamped target.
     */
    ghost predicate Compensated(m: Math, incoming: seq<seq<real>>, gain: real, paired: bool)
      requires Lawful(m)
      reads this`params, this`beforeLeveldB, this`afterLeveldB, this`compensating, this`gainReductiondB
      reads this`referenceBuffer, referenceBuffer, beforeAnalyzer, afterAnalyzer, gainSmoother
    {
      && beforeAnalyzer.lastBlock == Block(referenceBuffer) && afterAnalyzer.lastBlock == incoming
      && beforeLeveldB == SelectedLevel(m, MeasurementModeFromIndex(params.measurementMode), beforeAnalyzer)
      && afterLeveldB == SelectedLevel(m, MeasurementModeFromIndex(params.measurementMode), afterAnalyzer)
      && compensating == ShouldCompensate(beforeLeveldB, afterLeveldB, params.tolerance, paired)
      && gainReductiondB == SmoothStep(gain, Target(beforeLeveldB, afterLeveldB, compensating),
                                       gainSmoother.attackCoeff, gainSmoother.releaseCoeff)
    }

    /**
     * Stages 5 and 6 of After mode, for a processed block `incoming` and a delta level
     * `deltadB` before it: every sample is the routed sample under the output trim; a routed
     * delta is measured (the delta level is kept otherwise), and so is the output.
     */
    ghost predicate Rendered(m: Math, buffer: array2<real>, incoming: seq<seq<real>>, deltadB: real)
      requires Lawful(m)
      reads this`params, this`gainReductiondB, this`deltaLeveldB, this`outputLeveldB, this`referenceBuffer
      reads referenceBuffer, buffer, deltaAnalyzer, outputAnalyzer
    {
      && |incoming| == buffer.Length0 && (forall c :: 0 <= c < |incoming| ==> |incoming[c]| == buffer.Length1)
      && buffer.Length0 <= referenceBuffer.Length0 && buffer.Length1 <= referenceBuffer.Length1
      && (forall c, i :: 0 <= c < buffer.Length0 && 0 <= i < buffer.Length1 ==>
            buffer[c, i] ==
              Trim(m, params.outputGaindB,
                   RoutedSample(Routing(), incoming[c][i], referenceBuffer[c, i],
                                DecibelsToGain(m, params.deltaGaindB), DecibelsToGain(m, gainReductiondB))))
      && (MeasuresDelta(Routing()) ==>
            && deltaLeveldB == deltaAnalyzer.GetRMSdB(m)
            && Within(incoming, Block(referenceBuffer))
            && deltaAnalyzer.lastBlock == DeltaOf(incoming, Block(referenceBuffer), DecibelsToGain(m, params.deltaGaindB)))
      && (!MeasuresDelta(Routing()) ==> deltaLeveldB == deltadB)
      && outputAnalyzer.lastBlock == Block(buffer) && outputLeveldB == outputAnalyzer.GetRMSdB(m)
    }

    /** The pair's slot as a value; an empty state for a pair ID outside 1..16. */
    ghost function PairSlot(): SlotState
      requires registry.Valid()
      reads this`params, registry, registry.buffers
    {
      if ValidPairId(GetPairID()) then registry.Slot(GetPairID()).State() else SlotState([], 0, 0, 0.0, 0, 0)
    }

    /**
     * The state a Before-mode block leaves when the processed block held `incoming` and the
     * pair's slot was `slot` before it: the block is `incoming` under the input trim; the
     * before analyser measured it and its RMS reading is the before level; the slot took
     * the whole block as `writeSamples` writes it and is live at `now`.
     */
    ghost predicate BeforeModeBlock(m: Math, buffer: array2<real>, incoming: seq<seq<real>>, slot: SlotState, now: int)
      requires Lawful(m) && registry.Valid()
      reads this`params, this`beforeLeveldB, beforeAnalyzer, buffer, registry, registry.buffers
    {
      && Block(buffer) == TrimBlock(m, params.inputGaindB, incoming)
      && beforeAnalyzer.lastBlock == Block(buffer)
      && beforeLeveldB == beforeAnalyzer.GetRMSdB(m)
      && (ValidPairId(GetPairID()) ==>
            && slot.Takes(buffer.Length0)
            && registry.Slot(GetPairID()).Wrote(slot, buffer, buffer.Length1, now)
            && registry.IsBeforeInstanceActive(GetPairID(), now))
    }

    /**
     * A reference block read over `base` holds, in its first `n` samples of every channel
     * both have, the slot's samples from the delayed read start onwards.
     */
    lemma ReadOverHolds(base: seq<seq<real>>, n: int)
      requires registry.Valid() && ReferenceReadOver(base, n, PairSlot())
      ensures ReferenceFromSlot(n)
    {
      if ValidPairId(GetPairID()) {
        var d := registry.Slot(GetPairID());
        var start := SlotReadStart(n);
        forall c, i | 0 <= c < MinInt(referenceBuffer.Length0, d.numChannels) && 0 <= i < n
          ensures referenceBuffer[c, i] == d.channelBuffers[c][Cursor(start, i, d.bufferSize)]
        {
          assert referenceBuffer[c, i] == Block(referenceBuffer)[c][i];
          assert Block(referenceBuffer)[c][i] == RingRead(d.channelBuffers[c], start, d.bufferSize, n)[i];
        }
      }
    }

    /** Where a read of `n` samples from the pair's slot starts, at the current latency offset. */
    ghost function SlotReadStart(n: int): int
      requires registry.Valid() && ValidPairId(GetPairID()) && registry.Slot(GetPairID()).bufferSize > 0
      reads this`params, registry, registry.buffers
    {
      ReadStart(registry.Slot(GetPairID()).writePosition, n, params.latencyOffset, registry.Slot(GetPairID()).bufferSize)
    }

    /** The RMS window length chosen by the window parameter at the current sample rate. */
    function WindowSamples(): int
      reads this`params, this`currentSampleRate
    {
      RmsWindowToSamples(RmsWindowFromIndex(params.rmsWindow), currentSampleRate)
    }

    /** After-mode stage 1: re-read the RMS window for both sides and the smoother's time constants. */
    method ConfigureAfterBlock(m: Math)
      requires Ready() && Lawful(m) && InRange(params)
      modifies beforeAnalyzer, afterAnalyzer, gainSmoother
      ensures Ready()
      ensures beforeAnalyzer.rmsWindowSamples == LimitInt(1, |beforeAnalyzer.rmsBuffer|, WindowSamples())
      ensures afterAnalyzer.rmsWindowSamples == LimitInt(1, |afterAnalyzer.rmsBuffer|, WindowSamples())
      ensures beforeAnalyzer.rmsBuffer == old(beforeAnalyzer.rmsBuffer) && afterAnalyzer.rmsBuffer == old(afterAnalyzer.rmsBuffer)
      ensures gainSmoother.attackMs == params.attackMs && gainSmoother.releaseMs == params.releaseMs
      ensures Configured(m, old(gainSmoother.sampleRate))
    {
      var windowSamples := WindowSamples();
      beforeAnalyzer.SetRMSWindowSamples(windowSamples);
      afterAnalyzer.SetRMSWindowSamples(windowSamples);
      gainSmoother.SetAttackTime(m, params.attackMs);
      gainSmoother.SetReleaseTime(m, params.releaseMs);
    }

    /**
     * After-mode stage 2: grows the reference block (silenced, one channel per processed
     * channel) when it is shorter than the block, then reads the partner's samples into it.
     */
    method FetchReference(buffer: array2<real>)
      requires Ready() && registry.Valid()
      requires buffer.Length0 >= 1 && buffer != referenceBuffer
      requires CanFetch(buffer.Length0)
      modifies this`referenceBuffer, referenceBuffer
      ensures Ready() && registry.Valid()
      ensures buffer != referenceBuffer
      ensures buffer.Length0 <= referenceBuffer.Length0 && buffer.Length1 <= referenceBuffer.Length1
      ensures ReferenceFromSlot(buffer.Length1)
      ensures buffer.Length1 <= old(referenceBuffer.Length1) ==> referenceBuffer == old(referenceBuffer)
      ensures ReferenceReadOver(SizedReference(old(Block(referenceBuffer)), old(referenceBuffer.Length1), buffer.Length0, buffer.Length1), buffer.Length1, PairSlot())
    {
      GrowReference(buffer);
      ReadReference(buffer.Length1);
    }

    /** `setSize` on the reference block: when it is shorter than the block, it is replaced by a silent one of the block's shape. */
    method GrowReference(buffer: array2<real>)
      requires Ready() && registry.Valid()
      requires buffer.Length0 >= 1 && buffer != referenceBuffer
      requires CanFetch(buffer.Length0)
      modifies this`referenceBuffer
      ensures Ready() && buffer != referenceBuffer
      ensures buffer.Length0 <= referenceBuffer.Length0 && buffer.Length1 <= referenceBuffer.Length1
      ensures ValidPairId(GetPairID()) ==> registry.Slot(GetPairID()).Readable(referenceBuffer.Length0)
      ensures old(referenceBuffer.Length1) < buffer.Length1 ==>
        fresh(referenceBuffer) && forall c, i :: 0 <= c < referenceBuffer.Length0 && 0 <= i < referenceBuffer.Length1 ==> referenceBuffer[c, i] == 0.0
      ensures buffer.Length1 <= old(referenceBuffer.Length1) ==> referenceBuffer == old(referenceBuffer)
      ensures Block(referenceBuffer) == SizedReference(old(Block(referenceBuffer)), old(referenceBuffer.Length1), buffer.Length0, buffer.Length1)
    {
      if referenceBuffer.Length1 < buffer.Length1 {
        referenceBuffer := new real[buffer.Length0, buffer.Length1]((c, i) => 0.0);
        BlockIs(referenceBuffer, Silence(buffer.Length0, buffer.Length1));
      }
    }

    /** `readSamples` into the reference block: its first `n` samples take the slot's delayed samples. */
    method ReadReference(n: int)
      requires registry.Valid()
      requires 0 <= n <= referenceBuffer.Length1
      requires ValidPairId(GetPairID()) ==> registry.Slot(GetPairID()).Readable(referenceBuffer.Length0)
      modifies referenceBuffer
      ensures ReferenceFromSlot(n)
      ensures ReferenceReadOver(old(Block(referenceBuffer)), n, PairSlot())
    {
      registry.ReadSamples(GetPairID(), referenceBuffer, n, params.latencyOffset);
      if ValidPairId(GetPairID()) {
        var d := registry.Slot(GetPairID());
        var start := ReadStart(d.writePosition, n, params.latencyOffset, d.bufferSize);
        forall c, i | 0 <= c < MinInt(referenceBuffer.Length0, d.numChannels) && 0 <= i < n
          ensures referenceBuffer[c, i] == d.channelBuffers[c][Cursor(start, i, d.bufferSize)]
        {
          assert referenceBuffer[c, i] == Block(referenceBuffer)[c][i];
          assert Block(referenceBuffer)[c][i] == RingRead(d.channelBuffers[c], start, d.bufferSize, n)[i];
        }
      }
    }

    /**
     * After-mode stage 3: measures the reference and the processed block and publishes
     * both readings, RMS or peak as the measurement mode selects.
     */
    method MeasureLevels(m: Math, buffer: array2<real>)
      requires Ready() && Lawful(m)
      requires buffer.Length0 >= 1
      modifies beforeAnalyzer, afterAnalyzer, this`beforeLeveldB, this`afterLeveldB
      ensures Ready()
      ensures old(Configured(m, gainSmoother.sampleRate)) ==> Configured(m, old(gainSmoother.sampleRate))
      ensures beforeAnalyzer.lastBlock == Block(referenceBuffer) && afterAnalyzer.lastBlock == Block(buffer)
      ensures beforeLeveldB == SelectedLevel(m, MeasurementModeFromIndex(params.measurementMode), beforeAnalyzer)
      ensures afterLeveldB == SelectedLevel(m, MeasurementModeFromIndex(params.measurementMode), afterAnalyzer)
    {
      Measure(m, beforeAnalyzer, referenceBuffer);
      Measure(m, afterAnalyzer, buffer);
      var beforeLevel, afterLevel;
      if MeasurementModeFromIndex(params.measurementMode) == Rms {
        beforeLevel := beforeAnalyzer.GetRMSdB(m);
        afterLevel := afterAnalyzer.GetRMSdB(m);
      } else {
        beforeLevel := beforeAnalyzer.GetPeakdB(m);
        afterLevel := afterAnalyzer.GetPeakdB(m);
      }
      beforeLeveldB := beforeLevel;
      afterLeveldB := afterLevel;
    }

    /**
     * After-mode stage 4: the gate, the clamped target and one smoothing step, whose result
     * is published as the gain reduction.
     */
    method UpdateCompensation(now: int)
      requires Ready() && registry.Valid()
      modifies gainSmoother`currentGaindB, this`compensating, this`gainReductiondB
      ensures Ready()
      ensures compensating == ShouldCompensate(beforeLeveldB, afterLeveldB, params.tolerance, old(IsPaired(now)))
      ensures gainReductiondB == SmoothStep(old(gainReductiondB), Target(beforeLeveldB, afterLeveldB, compensating),
                                            gainSmoother.attackCoeff, gainSmoother.releaseCoeff)
    {
      var paired := IsPaired(now);
      var shouldCompensate := ShouldCompensate(beforeLeveldB, afterLeveldB, params.tolerance, paired);
      compensating := shouldCompensate;
      var target := Target(beforeLeveldB, afterLeveldB, shouldCompensate);
      GateAndTarget(beforeLeveldB, afterLeveldB, params.tolerance, paired);
      CompensationStaysInRange(gainSmoother.currentGaindB, target, gainSmoother.attackCoeff, gainSmoother.releaseCoeff);
      var smoothed := gainSmoother.Process(target);
      gainReductiondB := smoothed;
    }

    /**
     * After-mode stage 5: routing.  Listen-before copies the reference; otherwise, with a
     * delta switch on, the difference block is built and measured, and solo outputs it
     * while delta-enabled alone applies the compensation; otherwise the compensation is applied.
     */
    method RouteAudio(m: Math, buffer: array2<real>)
      requires Ready() && Lawful(m)
      requires buffer.Length0 >= 1 && buffer != referenceBuffer
      requires buffer.Length0 <= referenceBuffer.Length0 && buffer.Length1 <= referenceBuffer.Length1
      modifies buffer, deltaAnalyzer, this`deltaLeveldB
      ensures Ready()
      ensures forall c, i :: 0 <= c < buffer.Length0 && 0 <= i < buffer.Length1 ==>
        buffer[c, i] == RoutedSample(Routing(), old(buffer[c, i]), referenceBuffer[c, i],
                                     DecibelsToGain(m, params.deltaGaindB), DecibelsToGain(m, gainReductiondB))
      ensures MeasuresDelta(Routing()) ==>
        && deltaLeveldB == deltaAnalyzer.GetRMSdB(m)
        && Within(old(Block(buffer)), Block(referenceBuffer))
        && deltaAnalyzer.lastBlock == DeltaOf(old(Block(buffer)), Block(referenceBuffer), DecibelsToGain(m, params.deltaGaindB))
      ensures !MeasuresDelta(Routing()) ==> deltaLeveldB == old(deltaLeveldB) && unchanged(deltaAnalyzer)
    {
      if params.listenBefore {
        CopyBlock(buffer, referenceBuffer);
      } else if params.deltaEnabled || params.deltaSolo {
        RouteDelta(m, buffer);
      } else {
        ApplyGain(buffer, DecibelsToGain(m, gainReductiondB));
      }
    }

    /**
     * The delta branch of stage 5: the difference block, scaled by the delta gain, is
     * measured by the delta analyser; solo then outputs it, otherwise the compensation
     * gain is applied to the processed block.
     */
    method RouteDelta(m: Math, buffer: array2<real>)
      requires Ready() && Lawful(m)
      requires buffer.Length0 >= 1 && buffer != referenceBuffer
      requires buffer.Length0 <= referenceBuffer.Length0 && buffer.Length1 <= referenceBuffer.Length1
      modifies buffer, deltaAnalyzer, this`deltaLeveldB
      ensures Ready()
      ensures forall c, i :: 0 <= c < buffer.Length0 && 0 <= i < buffer.Length1 ==>
        buffer[c, i] == if params.deltaSolo
                        then (old(buffer[c, i]) - referenceBuffer[c, i]) * DecibelsToGain(m, params.deltaGaindB)
                        else old(buffer[c, i]) * DecibelsToGain(m, gainReductiondB)
      ensures deltaLeveldB == deltaAnalyzer.GetRMSdB(m)
      ensures Within(old(Block(buffer)), Block(referenceBuffer))
      ensures deltaAnalyzer.lastBlock == DeltaOf(old(Block(buffer)), Block(referenceBuffer), DecibelsToGain(m, params.deltaGaindB))
    {
      var deltaGainLinear := DecibelsToGain(m, params.deltaGaindB);
      var delta := MakeDelta(buffer, referenceBuffer, deltaGainLinear);
      MeasureDelta(m, delta);
      WriteDeltaRoute(buffer, delta, params.deltaSolo, DecibelsToGain(m, gainReductiondB));
    }

    /** The delta analyser measures the difference block and its RMS reading is published. */
    method MeasureDelta(m: Math, delta: array2<real>)
      requires Ready() && Lawful(m)
      requires delta.Length0 >= 1
      modifies deltaAnalyzer, this`deltaLeveldB
      ensures Ready()
      ensures deltaAnalyzer.lastBlock == Block(delta)
      ensures deltaLeveldB == deltaAnalyzer.GetRMSdB(m)
    {
      Measure(m, deltaAnalyzer, delta);
      deltaLeveldB := deltaAnalyzer.GetRMSdB(m);
    }

    /** After-mode stage 6: the output trim, then the output measurement. */
    method FinishOutput(m: Math, buffer: array2<real>)
      requires Ready() && Lawful(m)
      requires buffer.Length0 >= 1
      modifies buffer, outputAnalyzer, this`outputLeveldB
      ensures Ready()
      ensures forall c, i :: 0 <= c < buffer.Length0 && 0 <= i < buffer.Length1 ==>
        buffer[c, i] == Trim(m, params.outputGaindB, old(buffer[c, i]))
      ensures outputAnalyzer.lastBlock == Block(buffer)
      ensures outputLeveldB == outputAnalyzer.GetRMSdB(m)
    {
      ApplyTrim(m, buffer, params.outputGaindB);
      Measure(m, outputAnalyzer, buffer);
      outputLeveldB := outputAnalyzer.GetRMSdB(m);
    }

    /**
     * The destructor: a Before instance marks its pair's slot as no longer live at any
     * time; an After instance leaves the registry as it is.
     */
    method Dispose()
      requires registry.Valid()
      modifies registry.Footprint(GetPairID())
      ensures registry.Valid()
      ensures GetInstanceMode() == Before ==> forall t :: !registry.IsBeforeInstanceActive(GetPairID(), t)
      ensures GetInstanceMode() == After ==> unchanged(registry.Footprint(GetPairID()))
    {
      if GetInstanceMode() == Before {
        registry.SetBeforeInstanceInactive(GetPairID());
      }
    }
  }
}
