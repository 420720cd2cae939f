/**
 * The level analyser and the gain smoother (GainAnalyzer.h).
 *
 * `GainAnalyzer` keeps a ring of squared samples (half a second at the prepared sample
 * rate), a clamped RMS window length, and a peak-hold state driven by a countdown in
 * samples.  `GainSmoother` is a one-pole filter over decibel values whose coefficient
 * depends on whether the target lies below the current value.
 */
module Analysis {
  import opened Ring
  import opened Numerics
  import opened Audio

  /** The level reported in decibels for a level that is not positive. */
  const FloorDb: real := -100.0
  /** Length of the squared-sample history, in seconds. */
  const HistorySeconds: real := 0.5

  // ---------------------------------------------------------------------------
  // Block measurements.

  /** All samples of a block, channel after channel: the order `process` visits them. */
  function Flatten(block: seq<seq<real>>): seq<real>
  {
    if block == [] then [] else Flatten(block[..|block| - 1]) + block[|block| - 1]
  }

  /** A block of `channels` rows of `n` samples flattens to `channels * n` samples. */
  lemma {:induction false} FlattenLength(block: seq<seq<real>>, n: nat)
    requires forall ch :: 0 <= ch < |block| ==> |block[ch]| == n
    ensures |Flatten(block)| == |block| * n
  {
    if block != [] {
      var init := block[..|block| - 1];
      FlattenLength(init, n);
      assert |Flatten(block)| == |Flatten(init)| + n;
      assert |init| * n + n == |block| * n;
    }
  }

  function Square(x: real): real
  {
    x * x
  }

  /** The squares of a sequence of samples, in order. */
  function Squares(s: seq<real>): (r: seq<real>)
    ensures |r| == |s|
  {
    if s == [] then [] else Squares(s[..|s| - 1]) + [Square(s[|s| - 1])]
  }

  lemma {:induction false} SquaresAt(s: seq<real>)
    ensures forall i :: 0 <= i < |s| ==> Squares(s)[i] == Square(s[i])
  {
    if s != [] {
      SquaresAt(s[..|s| - 1]);
    }
  }

  /** The largest absolute sample value, accumulated from 0 with `jmax` as the source does. */
  function BlockPeak(s: seq<real>): (p: real)
    ensures p >= 0.0
  {
    if s == [] then 0.0
    else
      var prev := BlockPeak(s[..|s| - 1]);
      var last := Abs(s[|s| - 1]);
      if prev < last then last else prev
  }

  /**
   * The block peak is the largest sample magnitude: at least every sample's magnitude,
   * and either 0 (an empty block) or the magnitude of one of the samples.
   */
  lemma {:induction false} BlockPeakIsMaximum(s: seq<real>)
    ensures forall i :: 0 <= i < |s| ==> Abs(s[i]) <= BlockPeak(s)
    ensures BlockPeak(s) == 0.0 || exists i :: 0 <= i < |s| && BlockPeak(s) == Abs(s[i])
  {
    if s != [] {
      var prefix := s[..|s| - 1];
      BlockPeakIsMaximum(prefix);
      assert forall i :: 0 <= i < |prefix| ==> prefix[i] == s[i];
      if BlockPeak(s) != Abs(s[|s| - 1]) && BlockPeak(s) != 0.0 {
        var i :| 0 <= i < |prefix| && BlockPeak(prefix) == Abs(prefix[i]);
        assert BlockPeak(s) == Abs(s[i]);
      }
    }
  }

  /** A silent block has peak 0. */
  lemma {:induction false} SilentBlockPeak(s: seq<real>)
    requires forall i :: 0 <= i < |s| ==> s[i] == 0.0
    ensures BlockPeak(s) == 0.0
  {
    if s != [] {
      SilentBlockPeak(s[..|s| - 1]);
    }
  }

  /** `getRMSdB` / `getPeakdB`: `20 * log10(level)` for a positive level, the -100 dB floor otherwise. */
  function LevelToDb(m: Math, level: real): real
    requires Lawful(m)
  {
    if level > 0.0 then 20.0 * Log10(m, level) else FloorDb
  }

  /**
   * The RMS reading of `process`: the square root of a window sum of squares divided by the
   * number of samples it covers, the window length times the channel count.  A non-negative
   * sum gives a non-negative RMS, and a zero sum gives exactly 0.
   */
  function RootMeanSquare(m: Math, sum: real, window: int, channels: int): (r: real)
    requires Lawful(m) && window >= 1 && channels >= 1
    ensures sum >= 0.0 ==> r >= 0.0
    ensures sum == 0.0 ==> r == 0.0
  {
    MulAtLeast(window, channels);
    Sqrt(m, sum / (window * channels) as real)
  }

  /**
   * A silent measurement: when the RMS window covers only silent samples, the RMS is 0 and
   * its decibel reading is the -100 dB floor (never minus infinity).
   */
  lemma {:induction false} SilentWindowReadsFloor(m: Math, window: seq<real>, windowSize: int, channels: int)
    requires Lawful(m)
    requires windowSize >= 1 && channels >= 1
    requires forall i :: 0 <= i < |window| ==> window[i] == 0.0
    ensures RootMeanSquare(m, Sum(Squares(window)), windowSize, channels) == 0.0
    ensures LevelToDb(m, RootMeanSquare(m, Sum(Squares(window)), windowSize, channels)) == FloorDb
  {
    SilenceSquaresToZero(window);
  }

  /** A block whose every sample is silent flattens to silent samples. */
  lemma {:induction false} FlattenZeros(block: seq<seq<real>>)
    requires forall c, i :: 0 <= c < |block| && 0 <= i < |block[c]| ==> block[c][i] == 0.0
    ensures forall k :: 0 <= k < |Flatten(block)| ==> Flatten(block)[k] == 0.0
  {
    if block != [] {
      var init := block[..|block| - 1];
      FlattenZeros(init);
      assert Flatten(block) == Flatten(init) + block[|block| - 1];
      forall k | 0 <= k < |Flatten(block)|
        ensures Flatten(block)[k] == 0.0
      {
        if k >= |Flatten(init)| {
          assert Flatten(block)[k] == block[|block| - 1][k - |Flatten(init)|];
        }
      }
    }
  }

  /**
   * After a silent run of samples at least as long as the window is written to the
   * history, the window sees only silence: the level reads as the -100 dB floor,
   * whatever the history held before.
   */
  lemma SilentSamplesReadFloor(m: Math, history: seq<real>, start: int, samples: seq<real>, window: nat, channels: int)
    requires Lawful(m)
    requires 0 < |history|
    requires 1 <= window <= |samples| <= |history|
    requires channels >= 1
    requires forall i :: 0 <= i < |samples| ==> samples[i] == 0.0
    ensures LevelToDb(m, RootMeanSquare(m, WindowSum(RingWrite(history, start, |history|, Squares(samples)),
                                          Cursor(start, |samples|, |history|), window), window, channels))
         == FloorDb
  {
    SilentSamplesSumZero(history, start, samples, window);
  }

  /** After a silent run at least as long as the window, the window sum over the history is 0. */
  lemma SilentSamplesSumZero(history: seq<real>, start: int, samples: seq<real>, window: nat)
    requires 0 < |history|
    requires 1 <= window <= |samples| <= |history|
    requires forall i :: 0 <= i < |samples| ==> samples[i] == 0.0
    ensures WindowSum(RingWrite(history, start, |history|, Squares(samples)), Cursor(start, |samples|, |history|), window) == 0.0
  {
    var tail := samples[|samples| - window..];
    assert Sum(Squares(tail)) == 0.0 by {
      SilenceSquaresToZero(tail);
    }
    WindowSeesLatestSamples(history, start, samples, window);
  }

  /** The squares of silent samples sum to 0. */
  lemma SilenceSquaresToZero(s: seq<real>)
    requires forall i :: 0 <= i < |s| ==> s[i] == 0.0
    ensures Sum(Squares(s)) == 0.0
  {
    SquaresAt(s);
    SumZeros(Squares(s));
  }

  // ---------------------------------------------------------------------------
  // Peak hold.

  datatype PeakHold = PeakHold(peak: real, counter: int)

  /**
   * One block of the peak-hold state machine: a block peak that meets or exceeds the held
   * peak replaces it and restarts the countdown at `holdSamples`; otherwise, while the
   * countdown is positive it drops by the block's sample count and the peak is held;
   * once it has run out the held peak falls to the block's peak.
   */
  function PeakHoldStep(s: PeakHold, blockPeak: real, numSamples: int, holdSamples: int): (r: PeakHold)
    ensures r.peak >= blockPeak
    ensures r.peak == blockPeak || r.peak == s.peak
    ensures s.counter > 0 ==> r.peak >= s.peak
    ensures r.peak < s.peak ==> s.counter <= 0 && r.peak == blockPeak && r.counter == s.counter
    ensures r.peak > s.peak ==> r.counter == holdSamples
  {
    if blockPeak >= s.peak then PeakHold(blockPeak, holdSamples)
    else if s.counter > 0 then PeakHold(s.peak, s.counter - numSamples)
    else PeakHold(blockPeak, s.counter)
  }

  /** The state after `k` blocks of `numSamples` samples whose peak is `quiet`. */
  function QuietRun(s: PeakHold, quiet: real, numSamples: int, holdSamples: int, k: nat): PeakHold
  {
    if k == 0 then s else PeakHoldStep(QuietRun(s, quiet, numSamples, holdSamples, k - 1), quiet, numSamples, holdSamples)
  }

  /**
   * After a loud block (peak `loud`, countdown restarted at `holdSamples`), quieter blocks
   * keep the loud peak for as long as the countdown was positive before each of them.
   */
  lemma {:induction false} PeakHeldDuringCountdown(loud: real, quiet: real, numSamples: int, holdSamples: int, k: nat)
    requires quiet < loud
    requires numSamples > 0
    requires (k - 1) * numSamples < holdSamples
    ensures QuietRun(PeakHold(loud, holdSamples), quiet, numSamples, holdSamples, k)
         == PeakHold(loud, holdSamples - k * numSamples)
  {
    if k > 0 {
      assert (k - 2) * numSamples < (k - 1) * numSamples;
      PeakHeldDuringCountdown(loud, quiet, numSamples, holdSamples, k - 1);
      assert holdSamples - (k - 1) * numSamples > 0;
      assert holdSamples - (k - 1) * numSamples - numSamples == holdSamples - k * numSamples;
    }
  }

  /**
   * The block right after the countdown is exhausted drops the held peak to that block's
   * peak: if block `k` is the first whose countdown reaches zero or below, the loud peak is
   * still held after it and block `k + 1` reports the quiet peak.
   */
  lemma PeakDecaysAfterHold(loud: real, quiet: real, numSamples: int, holdSamples: int, k: nat)
    requires quiet < loud
    requires numSamples > 0
    requires (k - 1) * numSamples < holdSamples <= k * numSamples
    ensures QuietRun(PeakHold(loud, holdSamples), quiet, numSamples, holdSamples, k).peak == loud
    ensures QuietRun(PeakHold(loud, holdSamples), quiet, numSamples, holdSamples, k + 1).peak == quiet
  {
    PeakHeldDuringCountdown(loud, quiet, numSamples, holdSamples, k);
  }

  /** The sum of the last `window` history entries behind the cursor: the numerator of the RMS. */
  function WindowSum(history: seq<real>, writePos: int, window: nat): (r: real)
    requires 0 < |history|
    ensures (forall j :: 0 <= j < |history| ==> history[j] >= 0.0) ==> r >= 0.0
  {
    var start := ReadStart(writePos, window, 0, |history|);
    var sum := RingSum(history, start, |history|, window);
    if forall j :: 0 <= j < |history| ==> history[j] >= 0.0 then
      RingSumNonNegative(history, start, |history|, window);
      sum
    else
      sum
  }

  // ---------------------------------------------------------------------------
  // The analyser.

  class GainAnalyzer {
    var sampleRate: real
    var rmsBuffer: seq<real>
    /** The block most recently handed to `process`, as channels of samples (specification only). */
    ghost var lastBlock: seq<seq<real>>
    var rmsWritePos: int
    var rmsWindowSamples: int
    var peakHoldSamples: int
    var peakHoldCounter: int
    var currentRMS: real
    var currentPeak: real

    /**
     * The history holds squares (never negative), the cursor is inside it, and the current
     * levels are never negative.
     */
    ghost predicate Valid()
      reads this
    {
      && (if |rmsBuffer| == 0 then rmsWritePos == 0 else 0 <= rmsWritePos < |rmsBuffer|)
      && (forall j :: 0 <= j < |rmsBuffer| ==> rmsBuffer[j] >= 0.0)
      && currentRMS >= 0.0
      && currentPeak >= 0.0
    }

    /** `process` can run: the history is non-empty and the window lies within it. */
    ghost predicate Ready()
      reads this
    {
      Valid() && |rmsBuffer| > 0 && 1 <= rmsWindowSamples <= |rmsBuffer|
    }

    /** The state of a default-constructed analyser: empty history, 4800-sample window and hold, 48 kHz, nothing measured. */
    ghost predicate Defaulted()
      reads this
    {
      && rmsBuffer == [] && rmsWritePos == 0
      && rmsWindowSamples == 4800 && peakHoldSamples == 4800 && peakHoldCounter == 0
      && currentRMS == 0.0 && currentPeak == 0.0 && sampleRate == 48000.0
      && lastBlock == []
    }

    /** A default-constructed analyser. */
    constructor ()
      ensures Valid() && Defaulted()
    {
      sampleRate := 48000.0;
      lastBlock := [];
      rmsBuffer := [];
      rmsWritePos := 0;
      rmsWindowSamples := 4800;
      peakHoldSamples := 4800;
      peakHoldCounter := 0;
      currentRMS := 0.0;
      currentPeak := 0.0;
    }

    /**
     * `prepare`: resizes the history to half a second of samples (keeping what it held and
     * padding with silence) and resets the cursor, levels and countdown.  The window and
     * hold lengths are kept.
     */
    method Prepare(newSampleRate: real, maxBlockSize: int)
      requires Valid()
      requires newSampleRate >= 0.0
      modifies this
      ensures Valid()
      ensures sampleRate == newSampleRate
      ensures rmsBuffer == Resized(old(rmsBuffer), Trunc(newSampleRate * HistorySeconds))
      ensures rmsWritePos == 0 && currentRMS == 0.0 && currentPeak == 0.0 && peakHoldCounter == 0
      ensures rmsWindowSamples == old(rmsWindowSamples) && peakHoldSamples == old(peakHoldSamples)
    {
      sampleRate := newSampleRate;
      rmsBuffer := Resized(rmsBuffer, Trunc(newSampleRate * HistorySeconds));
      rmsWritePos := 0;
      currentRMS := 0.0;
      currentPeak := 0.0;
      peakHoldCounter := 0;
    }

    /** `setRMSWindowSamples`: the window becomes `samples` clamped to [1, history length]. */
    method SetRMSWindowSamples(samples: int)
      requires Valid()
      modifies this
      ensures Valid()
      ensures rmsWindowSamples == LimitInt(1, |rmsBuffer|, samples)
      ensures |rmsBuffer| > 0 ==> Ready()
      ensures rmsBuffer == old(rmsBuffer) && rmsWritePos == old(rmsWritePos)
      ensures peakHoldSamples == old(peakHoldSamples) && peakHoldCounter == old(peakHoldCounter)
      ensures currentRMS == old(currentRMS) && currentPeak == old(currentPeak) && sampleRate == old(sampleRate)
    {
      rmsWindowSamples := LimitInt(1, |rmsBuffer|, samples);
    }

    /** `setPeakHoldSamples`: sets the hold length; nothing else changes. */
    method SetPeakHoldSamples(samples: int)
      modifies this
      ensures peakHoldSamples == samples
      ensures rmsBuffer == old(rmsBuffer) && rmsWritePos == old(rmsWritePos) && rmsWindowSamples == old(rmsWindowSamples)
      ensures peakHoldCounter == old(peakHoldCounter) && currentRMS == old(currentRMS)
      ensures currentPeak == old(currentPeak) && sampleRate == old(sampleRate)
    {
      peakHoldSamples := samples;
    }

    /**
     * `process`: writes the square of every sample, channel after channel, into the
     * history ring and advances the cursor; updates the peak-hold state with the block's
     * peak; and sets the RMS to the square root of the sum of the last `rmsWindowSamples`
     * history entries divided by `rmsWindowSamples * channels`.
     */
    method Process(m: Math, buffer: array2<real>)
      requires Ready() && Lawful(m)
      requires buffer.Length0 >= 1
      modifies this`lastBlock, this`rmsBuffer, this`rmsWritePos, this`currentPeak, this`peakHoldCounter, this`currentRMS
      ensures Ready()
      ensures |rmsBuffer| == |old(rmsBuffer)| && rmsWindowSamples == old(rmsWindowSamples)
      ensures peakHoldSamples == old(peakHoldSamples) && sampleRate == old(sampleRate)
      ensures lastBlock == Block(buffer)
      ensures rmsBuffer == RingWrite(old(rmsBuffer), old(rmsWritePos), |rmsBuffer|, Squares(Flatten(lastBlock)))
      ensures rmsWritePos == Cursor(old(rmsWritePos), |Flatten(lastBlock)|, |rmsBuffer|)
      ensures PeakHold(currentPeak, peakHoldCounter)
           == PeakHoldStep(PeakHold(old(currentPeak), old(peakHoldCounter)), BlockPeak(Flatten(lastBlock)),
                           buffer.Length1, peakHoldSamples)
      ensures currentRMS == RootMeanSquare(m, WindowSum(rmsBuffer, rmsWritePos, rmsWindowSamples), rmsWindowSamples, buffer.Length0)
    {
      var blockPeak := WriteBlock(buffer);
      UpdatePeakHold(blockPeak, buffer.Length1);
      UpdateRMS(m, buffer.Length0);
    }

    /**
     * The peak-hold update of `process`: a block peak at or above the held peak replaces it
     * and restarts the countdown; otherwise a running countdown drops by the block length;
     * otherwise the held peak falls to the block peak.
     */
    method UpdatePeakHold(blockPeak: real, numSamples: int)
      requires Valid() && blockPeak >= 0.0
      modifies this`currentPeak, this`peakHoldCounter
      ensures Valid()
      ensures PeakHold(currentPeak, peakHoldCounter)
           == PeakHoldStep(PeakHold(old(currentPeak), old(peakHoldCounter)), blockPeak, numSamples, peakHoldSamples)
    {
      if blockPeak >= currentPeak {
        currentPeak := blockPeak;
        peakHoldCounter := peakHoldSamples;
      } else if peakHoldCounter > 0 {
        peakHoldCounter := peakHoldCounter - numSamples;
      } else {
        currentPeak := blockPeak;
      }
    }

    /**
     * The RMS update of `process`: the square root of the window sum divided by the window
     * length times the channel count.
     */
    method UpdateRMS(m: Math, numChannels: int)
      requires Ready() && Lawful(m) && numChannels >= 1
      modifies this`currentRMS
      ensures Ready()
      ensures currentRMS == RootMeanSquare(m, WindowSum(rmsBuffer, rmsWritePos, rmsWindowSamples), rmsWindowSamples, numChannels)
    {
      var sum := SumWindow();
      currentRMS := RootMeanSquare(m, sum, rmsWindowSamples, numChannels);
    }

    /**
     * The sample loop of `process`: every sample's square goes into the history at the
     * cursor, channel after channel, the cursor advancing and wrapping after each; the
     * result is the largest sample magnitude of the block.
     */
    method WriteBlock(buffer: array2<real>) returns (blockPeak: real)
      requires Ready()
      modifies this`lastBlock, this`rmsBuffer, this`rmsWritePos
      ensures Ready()
      ensures lastBlock == Block(buffer)
      ensures |rmsBuffer| == |old(rmsBuffer)|
      ensures rmsBuffer == RingWrite(old(rmsBuffer), old(rmsWritePos), |rmsBuffer|, Squares(Flatten(lastBlock)))
      ensures rmsWritePos == Cursor(old(rmsWritePos), |Flatten(lastBlock)|, |rmsBuffer|)
      ensures blockPeak == BlockPeak(Flatten(lastBlock))
    {
      lastBlock := Block(buffer);
      ghost var samples := Flatten(lastBlock);
      blockPeak := WriteSquares(buffer);
      SquaresNonNegative(samples);
      RingWriteNonNegative(old(rmsBuffer), old(rmsWritePos), |rmsBuffer|, Squares(samples));
    }

    /** The channel loop of `process`, on its own: the history write and the running peak. */
    method WriteSquares(buffer: array2<real>) returns (blockPeak: real)
      requires 0 <= rmsWritePos < |rmsBuffer|
      modifies this`rmsBuffer, this`rmsWritePos
      ensures |rmsBuffer| == |old(rmsBuffer)|
      ensures rmsBuffer == RingWrite(old(rmsBuffer), old(rmsWritePos), |rmsBuffer|, Squares(Flatten(Block(buffer))))
      ensures rmsWritePos == Cursor(old(rmsWritePos), |Flatten(Block(buffer))|, |rmsBuffer|)
      ensures blockPeak == BlockPeak(Flatten(Block(buffer)))
    {
      ghost var block := Block(buffer);
      ghost var history := rmsBuffer;
      ghost var start := rmsWritePos;
      var numChannels := buffer.Length0;
      var numSamples := buffer.Length1;
      var size := |rmsBuffer|;

      blockPeak := 0.0;
      ghost var done: seq<real> := [];
      CursorZero(start, size);
      var ch := 0;
      while ch < numChannels
        invariant 0 <= ch <= numChannels
        invariant done == Flatten(block[..ch])
        invariant |rmsBuffer| == size
        invariant rmsBuffer == RingWrite(history, start, size, Squares(done))
        invariant rmsWritePos == Cursor(start, |done|, size)
        invariant blockPeak == BlockPeak(done)
      {
        blockPeak := WriteChannel(buffer, ch, blockPeak, history, start, done);
        assert block[ch] == Row(buffer, ch, numSamples);
        assert block[..ch + 1][..ch] == block[..ch];
        assert rmsWritePos == Cursor(start, |done + block[ch]|, size);
        done := done + block[ch];
        ch := ch + 1;
      }
      assert block[..numChannels] == block;
    }

    /**
     * One channel of the sample loop: continues the history write and the running peak
     * from the samples `done` so far with the channel's samples.
     */
    method WriteChannel(buffer: array2<real>, ch: int, peakSoFar: real,
                        ghost history: seq<real>, ghost start: int, ghost done: seq<real>)
      returns (blockPeak: real)
      requires 0 <= ch < buffer.Length0
      requires 0 < |history| == |rmsBuffer|
      requires rmsBuffer == RingWrite(history, start, |history|, Squares(done))
      requires rmsWritePos == Cursor(start, |done|, |history|)
      requires peakSoFar == BlockPeak(done)
      modifies this`rmsBuffer, this`rmsWritePos
      ensures |rmsBuffer| == |history|
      ensures rmsBuffer == RingWrite(history, start, |history|, Squares(done + Row(buffer, ch, buffer.Length1)))
      ensures rmsWritePos == Cursor(start, |done| + buffer.Length1, |history|)
      ensures blockPeak == BlockPeak(done + Row(buffer, ch, buffer.Length1))
    {
      ghost var row := Row(buffer, ch, buffer.Length1);
      var numSamples := buffer.Length1;
      var size := |rmsBuffer|;
      blockPeak := peakSoFar;
      ghost var seen := done;
      var i := 0;
      while i < numSamples
        invariant 0 <= i <= numSamples
        invariant seen == done + row[..i]
        invariant |rmsBuffer| == size
        invariant rmsBuffer == RingWrite(history, start, size, Squares(seen))
        invariant rmsWritePos == Cursor(start, |seen|, size)
        invariant blockPeak == BlockPeak(seen)
      {
        var sample := buffer[ch, i];
        var absSample := Abs(sample);
        SampleStep(history, start, size, seen, sample);
        PrefixStep(done, row, i);
        blockPeak := if blockPeak < absSample then absSample else blockPeak;
        rmsBuffer := rmsBuffer[rmsWritePos := Square(sample)];
        rmsWritePos := (rmsWritePos + 1) % size;
        seen := seen + [sample];
        i := i + 1;
      }
      assert row[..numSamples] == row;
    }

    /**
     * The window loop of `process`: starting `rmsWindowSamples` entries behind the cursor
     * (wrapping once if that is negative), sums that many history entries.
     */
    method SumWindow() returns (sum: real)
      requires Ready()
      ensures sum == WindowSum(rmsBuffer, rmsWritePos, rmsWindowSamples)
      ensures sum >= 0.0
    {
      var size := |rmsBuffer|;
      var windowSize := rmsWindowSamples;
      var pos := rmsWritePos - windowSize;
      if pos < 0 {
        pos := pos + size;
      }
      ReadStartIsWindowStart(rmsWritePos, windowSize, size);
      sum := 0.0;
      var i := 0;
      while i < windowSize
        invariant 0 <= i <= windowSize
        invariant sum == RingSum(rmsBuffer, pos, size, i)
      {
        sum := sum + rmsBuffer[(pos + i) % size];
        i := i + 1;
      }
      RingSumNonNegative(rmsBuffer, pos, size, windowSize);
    }

    function GetRMSLevel(): (r: real)
      requires Valid()
      reads this
      ensures r >= 0.0
    {
      currentRMS
    }

    function GetPeakLevel(): (r: real)
      requires Valid()
      reads this
      ensures r >= 0.0
    {
      currentPeak
    }

    /** `getRMSdB`. */
    function GetRMSdB(m: Math): (r: real)
      requires Lawful(m)
      reads this
      ensures currentRMS <= 0.0 ==> r == FloorDb
      ensures currentRMS > 0.0 ==> r == 20.0 * Log10(m, currentRMS)
    {
      LevelToDb(m, currentRMS)
    }

    /** `getPeakdB`. */
    function GetPeakdB(m: Math): (r: real)
      requires Lawful(m)
      reads this
      ensures currentPeak <= 0.0 ==> r == FloorDb
      ensures currentPeak > 0.0 ==> r == 20.0 * Log10(m, currentPeak)
    {
      LevelToDb(m, currentPeak)
    }
  }

  lemma SquaresNonNegative(s: seq<real>)
    ensures forall i :: 0 <= i < |Squares(s)| ==> Squares(s)[i] >= 0.0
  {
    SquaresAt(s);
    forall i | 0 <= i < |s|
      ensures Square(s[i]) >= 0.0
    {
      var x := s[i];
      if x < 0.0 {
        assert x * x == (-x) * (-x);
      }
    }
  }

  /** Writing one more value extends a ring write by one write at the next cursor position. */
  lemma RingWriteStep(history: seq<real>, start: int, size: int, src: seq<real>, v: real)
    requires 0 < size <= |history|
    ensures RingWrite(history, start, size, src + [v]) == RingWrite(history, start, size, src)[Cursor(start, |src|, size) := v]
  {
    assert (src + [v])[..|src|] == src;
  }

  lemma SquaresStep(s: seq<real>, x: real)
    ensures Squares(s + [x]) == Squares(s) + [Square(x)]
  {
    assert (s + [x])[..|s|] == s;
  }

  /** One more sample raises the running peak to its magnitude if that is larger. */
  lemma PeakStep(s: seq<real>, x: real)
    ensures BlockPeak(s + [x]) == if BlockPeak(s) < Abs(x) then Abs(x) else BlockPeak(s)
  {
    assert (s + [x])[..|s|] == s;
  }

  /** One more sample: its square goes in at the cursor, the cursor advances, the peak rises to its magnitude. */
  lemma SampleStep(history: seq<real>, start: int, size: int, seen: seq<real>, x: real)
    requires 0 < size <= |history|
    ensures RingWrite(history, start, size, Squares(seen + [x]))
            == RingWrite(history, start, size, Squares(seen))[Cursor(start, |seen|, size) := Square(x)]
    ensures Cursor(start, |seen + [x]|, size) == (Cursor(start, |seen|, size) + 1) % size
    ensures BlockPeak(seen + [x]) == if BlockPeak(seen) < Abs(x) then Abs(x) else BlockPeak(seen)
  {
    PeakStep(seen, x);
    SquaresStep(seen, x);
    RingWriteStep(history, start, size, Squares(seen), Square(x));
    CursorStep(start, |seen|, size);
  }

  /** Extending a prefix of `row` by its next element. */
  lemma PrefixStep(done: seq<real>, row: seq<real>, i: int)
    requires 0 <= i < |row|
    ensures done + row[..i] + [row[i]] == done + row[..i + 1]
  {
    assert row[..i + 1] == row[..i] + [row[i]];
  }

  /** The squares of a suffix are the suffix of the squares. */
  lemma {:induction false} SquaresSuffix(s: seq<real>, lo: int)
    requires 0 <= lo <= |s|
    ensures Squares(s)[lo..] == Squares(s[lo..])
  {
    if lo == |s| {
      assert s[lo..] == [];
    } else {
      var prefix, x := s[..|s| - 1], s[|s| - 1];
      SquaresSuffix(prefix, lo);
      assert s[lo..] == prefix[lo..] + [x];
      SquaresStep(prefix[lo..], x);
      assert Squares(s) == Squares(prefix) + [Square(x)];
      assert Squares(s)[lo..] == Squares(prefix)[lo..] + [Square(x)];
    }
  }

  /** The source's window start (cursor minus window, plus the ring size if negative) is the ring read start. */
  lemma ReadStartIsWindowStart(writePos: int, window: int, size: int)
    requires 0 <= writePos < size && 1 <= window <= size
    ensures ReadStart(writePos, window, 0, size) == if writePos - window < 0 then writePos - window + size else writePos - window
  {
    if writePos - window < 0 {
      ModUnique(writePos - window, -1, writePos - window + size, size);
    } else {
      ModUnique(writePos - window, 0, writePos - window, size);
    }
  }

  /** A ring sum over non-negative entries is non-negative. */
  lemma {:induction false} RingSumNonNegative(buf: seq<real>, start: int, size: int, count: nat)
    requires 0 < size <= |buf|
    requires forall j :: 0 <= j < |buf| ==> buf[j] >= 0.0
    ensures RingSum(buf, start, size, count) >= 0.0
  {
    if count > 0 {
      RingSumNonNegative(buf, start, size, count - 1);
    }
  }

  /**
   * The RMS window measures the latest samples: after a block of at least `window`
   * samples that fits in the history, the window sum is the sum of the squares of the
   * block's last `window` samples (channel after channel).
   */
  lemma WindowSeesLatestSamples(history: seq<real>, start: int, samples: seq<real>, window: nat)
    requires 0 < |history|
    requires 1 <= window <= |samples| <= |history|
    ensures RingSum(RingWrite(history, start, |history|, Squares(samples)),
                    ReadStart(Cursor(start, |samples|, |history|), window, 0, |history|), |history|, window)
         == Sum(Squares(samples[|samples| - window..]))
  {
    var sq := Squares(samples);
    var lo := |samples| - window;
    assert sq[lo..] == Squares(samples[lo..]) by {
      SquaresSuffix(samples, lo);
    }
    WindowSumAfterWrite(history, start, sq, window);
  }

  // ---------------------------------------------------------------------------
  // The smoother.

  /** `exp(-1 / (sampleRate * timeMs * 0.001))`: for positive rate and time, strictly between 0 and 1. */
  function Coefficient(m: Math, sampleRate: real, timeMs: real): (c: real)
    requires Lawful(m)
    requires sampleRate > 0.0 && timeMs > 0.0
    ensures 0.0 < c < 1.0
  {
    var x := sampleRate * timeMs * 0.001;
    assert x > 0.0;
    assert -1.0 / x < 0.0;
    Exp(m, -1.0 / x)
  }

  /**
   * One step of the smoother: with the attack coefficient when the target lies below the
   * current value, with the release coefficient otherwise, the new value is
   * `c * current + (1 - c) * target`.
   */
  function SmoothStep(current: real, target: real, attack: real, release: real): real
  {
    if target < current then Blend(attack, current, target) else Blend(release, current, target)
  }

  /** `c * current + (1 - c) * target`: the one-pole filter's weighted mean. */
  function Blend(c: real, current: real, target: real): real
  {
    c * current + (1.0 - c) * target
  }

  /** The coefficient chosen by a step: attack when the target lies below the current value. */
  function ChosenCoefficient(current: real, target: real, attack: real, release: real): real
  {
    if target < current then attack else release
  }

  /**
   * A step moves the value toward the target by the chosen coefficient: the new distance
   * to the target is `c` times the old one, so with `c` in [0, 1] the new value lies
   * between the old value and the target, and a target equal to the value is a fixed point.
   */
  lemma SmoothStepContracts(current: real, target: real, attack: real, release: real)
    requires 0.0 <= attack <= 1.0 && 0.0 <= release <= 1.0
    ensures SmoothStep(current, target, attack, release) - target
         == ChosenCoefficient(current, target, attack, release) * (current - target)
    ensures target <= current ==> target <= SmoothStep(current, target, attack, release) <= current
    ensures current <= target ==> current <= SmoothStep(current, target, attack, release) <= target
    ensures target == current ==> SmoothStep(current, target, attack, release) == current
  {
    if target < current {
      StepDistance(current, target, attack);
      StepDown(current, target, attack);
    } else {
      StepDistance(current, target, release);
      StepUp(current, target, release);
      if target == current {
        StepFixed(current, release);
      }
    }
  }

  /** A step toward a target equal to the value stays put. */
  lemma StepFixed(x: real, c: real)
    ensures Blend(c, x, x) == x
  {
  }

  /** `c * current + (1 - c) * target` lies `c` times the old distance away from the target. */
  lemma StepDistance(current: real, target: real, c: real)
    ensures Blend(c, current, target) - target == c * (current - target)
  {
  }

  lemma StepDown(current: real, target: real, c: real)
    requires 0.0 <= c <= 1.0 && target <= current
    ensures target <= Blend(c, current, target) <= current
  {
    MulNonNegative(c, current - target);
    MulNonNegative(1.0 - c, current - target);
  }

  lemma StepUp(current: real, target: real, c: real)
    requires 0.0 <= c <= 1.0 && current <= target
    ensures current <= Blend(c, current, target) <= target
  {
    MulNonNegative(c, target - current);
    MulNonNegative(1.0 - c, target - current);
  }

  lemma MulAssociative(a: real, b: real, c: real)
    ensures (a * b) * c == a * (b * c)
  {
  }

  function Power(c: real, k: nat): real
  {
    if k == 0 then 1.0 else c * Power(c, k - 1)
  }

  lemma {:induction false} PowerBounds(c: real, k: nat)
    requires 0.0 <= c <= 1.0
    ensures 0.0 <= Power(c, k) <= 1.0
  {
    if k > 0 {
      PowerBounds(c, k - 1);
      var p := Power(c, k - 1);
      MulNonNegative(c, p);
      MulNonNegative(1.0 - c, p);
      assert c * p == p - (1.0 - c) * p;
    }
  }

  /** The smoother's value after `k` steps toward a constant target. */
  function SmoothRun(start: real, target: real, attack: real, release: real, k: nat): real
  {
    if k == 0 then start else SmoothStep(SmoothRun(start, target, attack, release, k - 1), target, attack, release)
  }

  /**
   * A target held constant below the start is approached geometrically with the attack
   * coefficient: after `k` steps the distance to the target is `attack^k` times the
   * initial distance (and never changes side).
   */
  lemma {:induction false} SmoothRunDown(start: real, target: real, attack: real, release: real, k: nat)
    requires 0.0 <= attack <= 1.0 && 0.0 <= release <= 1.0
    requires target < start
    ensures SmoothRun(start, target, attack, release, k) - target == Power(attack, k) * (start - target)
  {
    if k > 0 {
      var prev := SmoothRun(start, target, attack, release, k - 1);
      var p := Power(attack, k - 1);
      SmoothRunDown(start, target, attack, release, k - 1);
      PowerBounds(attack, k - 1);
      StepDownScaled(prev, target, attack, release, p, Power(attack, k), start - target);
      assert SmoothRun(start, target, attack, release, k) == SmoothStep(prev, target, attack, release);
    }
  }

  /** A step from `p * d` above the target (p >= 0, d > 0) lands `q * d` above it, `q = attack * p`. */
  lemma StepDownScaled(prev: real, target: real, attack: real, release: real, p: real, q: real, d: real)
    requires 0.0 <= attack <= 1.0 && 0.0 <= release <= 1.0
    requires p >= 0.0 && d > 0.0 && q == attack * p
    requires prev - target == p * d
    ensures SmoothStep(prev, target, attack, release) - target == q * d
  {
    MulNonNegative(p, d);
    MulAssociative(attack, p, d);
    if target < prev {
      StepDistance(prev, target, attack);
    } else {
      assert p * d == 0.0;
      StepDistance(prev, target, release);
      assert attack * (p * d) == 0.0;
    }
  }

  /**
   * A target held constant at or above the start is approached geometrically with the
   * release coefficient: after `k` steps the distance is `release^k` times the initial one.
   * Together with `SmoothRunDown`: distinct attack and release times give distinct rates
   * for falling and rising targets, and coefficients below 1 converge on the target.
   */
  lemma {:induction false} SmoothRunUp(start: real, target: real, attack: real, release: real, k: nat)
    requires 0.0 <= attack <= 1.0 && 0.0 <= release <= 1.0
    requires start <= target
    ensures SmoothRun(start, target, attack, release, k) - target == Power(release, k) * (start - target)
  {
    if k > 0 {
      var prev := SmoothRun(start, target, attack, release, k - 1);
      var p := Power(release, k - 1);
      SmoothRunUp(start, target, attack, release, k - 1);
      PowerBounds(release, k - 1);
      StepUpScaled(prev, target, attack, release, p, Power(release, k), start - target);
      assert SmoothRun(start, target, attack, release, k) == SmoothStep(prev, target, attack, release);
    }
  }

  /** A step from `p * d` at or below the target (p >= 0, d <= 0) lands `q * d` from it, `q = release * p`. */
  lemma StepUpScaled(prev: real, target: real, attack: real, release: real, p: real, q: real, d: real)
    requires 0.0 <= attack <= 1.0 && 0.0 <= release <= 1.0
    requires p >= 0.0 && d <= 0.0 && q == release * p
    requires prev - target == p * d
    ensures SmoothStep(prev, target, attack, release) - target == q * d
  {
    MulNonPositive(p, d);
    MulAssociative(release, p, d);
    StepDistance(prev, target, release);
  }

  class GainSmoother {
    var sampleRate: real
    var attackMs: real
    var releaseMs: real
    var attackCoeff: real
    var releaseCoeff: real
    var currentGaindB: real

    /** Time constants are positive and both coefficients lie in [0, 1]. */
    ghost predicate Valid()
      reads this
    {
      && attackMs > 0.0 && releaseMs > 0.0
      && 0.0 <= attackCoeff <= 1.0 && 0.0 <= releaseCoeff <= 1.0
    }

    /** The defaults: 48 kHz, 50 ms attack, 200 ms release, coefficients 0.99 and 0.999, value 0 dB. */
    ghost predicate Defaulted()
      reads this
    {
      && sampleRate == 48000.0 && attackMs == 50.0 && releaseMs == 200.0
      && attackCoeff == 0.99 && releaseCoeff == 0.999 && currentGaindB == 0.0
    }

    /** A smoother with the defaults. */
    constructor ()
      ensures Valid() && Defaulted()
    {
      sampleRate := 48000.0;
      attackMs := 50.0;
      releaseMs := 200.0;
      attackCoeff := 0.99;
      releaseCoeff := 0.999;
      currentGaindB := 0.0;
    }

    /**
     * `updateCoefficients`: for a positive sample rate, both coefficients are recomputed
     * from their time constants; otherwise both are left as they were.
     */
    method UpdateCoefficients(m: Math)
      requires Valid() && Lawful(m)
      modifies this`attackCoeff, this`releaseCoeff
      ensures Valid()
      ensures sampleRate <= 0.0 ==> attackCoeff == old(attackCoeff) && releaseCoeff == old(releaseCoeff)
      ensures sampleRate > 0.0 ==>
        attackCoeff == Coefficient(m, sampleRate, attackMs) && releaseCoeff == Coefficient(m, sampleRate, releaseMs)
    {
      if sampleRate <= 0.0 {
        return;
      }
      attackCoeff := Coefficient(m, sampleRate, attackMs);
      releaseCoeff := Coefficient(m, sampleRate, releaseMs);
    }

    /** `prepare`: records the sample rate and recomputes the coefficients. */
    method Prepare(m: Math, newSampleRate: real)
      requires Valid() && Lawful(m)
      modifies this
      ensures Valid()
      ensures sampleRate == newSampleRate && attackMs == old(attackMs) && releaseMs == old(releaseMs)
      ensures currentGaindB == old(currentGaindB)
      ensures sampleRate <= 0.0 ==> attackCoeff == old(attackCoeff) && releaseCoeff == old(releaseCoeff)
      ensures sampleRate > 0.0 ==>
        attackCoeff == Coefficient(m, sampleRate, attackMs) && releaseCoeff == Coefficient(m, sampleRate, releaseMs)
    {
      sampleRate := newSampleRate;
      UpdateCoefficients(m);
    }

    /** `setAttackTime`: records the attack time and recomputes the coefficients. */
    method SetAttackTime(m: Math, ms: real)
      requires Valid() && Lawful(m)
      requires ms > 0.0
      modifies this
      ensures Valid()
      ensures attackMs == ms && releaseMs == old(releaseMs) && sampleRate == old(sampleRate)
      ensures currentGaindB == old(currentGaindB)
      ensures sampleRate <= 0.0 ==> attackCoeff == old(attackCoeff) && releaseCoeff == old(releaseCoeff)
      ensures sampleRate > 0.0 ==>
        attackCoeff == Coefficient(m, sampleRate, attackMs) && releaseCoeff == Coefficient(m, sampleRate, releaseMs)
    {
      attackMs := ms;
      UpdateCoefficients(m);
    }

    /** `setReleaseTime`: records the release time and recomputes the coefficients. */
    method SetReleaseTime(m: Math, ms: real)
      requires Valid() && Lawful(m)
      requires ms > 0.0
      modifies this
      ensures Valid()
      ensures releaseMs == ms && attackMs == old(attackMs) && sampleRate == old(sampleRate)
      ensures currentGaindB == old(currentGaindB)
      ensures sampleRate <= 0.0 ==> attackCoeff == old(attackCoeff) && releaseCoeff == old(releaseCoeff)
      ensures sampleRate > 0.0 ==>
        attackCoeff == Coefficient(m, sampleRate, attackMs) && releaseCoeff == Coefficient(m, sampleRate, releaseMs)
    {
      releaseMs := ms;
      UpdateCoefficients(m);
    }

    /**
     * `process`: one smoothing step toward `targetGaindB`; returns the new value, which
     * lies between the old value and the target.
     */
    method Process(targetGaindB: real) returns (r: real)
      requires Valid()
      modifies this`currentGaindB
      ensures Valid()
      ensures r == currentGaindB == SmoothStep(old(currentGaindB), targetGaindB, attackCoeff, releaseCoeff)
      ensures targetGaindB <= old(currentGaindB) ==> targetGaindB <= r <= old(currentGaindB)
      ensures old(currentGaindB) <= targetGaindB ==> old(currentGaindB) <= r <= targetGaindB
    {
      SmoothStepContracts(currentGaindB, targetGaindB, attackCoeff, releaseCoeff);
      if targetGaindB < currentGaindB {
        currentGaindB := Blend(attackCoeff, currentGaindB, targetGaindB);
      } else {
        currentGaindB := Blend(releaseCoeff, currentGaindB, targetGaindB);
      }
      r := currentGaindB;
    }

    function GetCurrentGaindB(): real
      reads this
    {
      currentGaindB
    }

    /** `reset`: the smoothed value returns to 0 dB. */
    method Reset()
      modifies this`currentGaindB
      ensures currentGaindB == 0.0
    {
      currentGaindB := 0.0;
    }
  }
}
