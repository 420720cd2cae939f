/**
 * The pair-slot registry (SharedBuffer.h): a fixed table of 16 slots, one per pair ID,
 * each holding up to two circular channel buffers, a write cursor, a write-sequence
 * counter, a last-write time stamp and a liveness flag.
 *
 * The registry is an explicit object handed to each processor rather than a process-wide
 * singleton, its atomics are plain fields, and every operation runs on its own.  The clock
 * is a `now` parameter in milliseconds.
 */
module SharedBuffer {
  import opened Ring
  import opened Numerics
  import opened Audio

  const MaxPairIds: int := 16
  const MaxChannels: int := 2
  const BufferLengthSeconds: real := 1.0
  const DefaultBufferSize: int := 48000
  /** A slot counts as live for this many milliseconds after its last write. */
  const StalenessMs: int := 1000

  predicate ValidPairId(pairId: int)
  {
    1 <= pairId <= MaxPairIds
  }

  /**
   * Liveness of a slot at time `now`: the flag is set and fewer than 1000 ms have passed
   * since the last write, the difference taken as `uint64_t` (so a clock that reads
   * earlier than the stamp wraps to a huge difference).
   */
  function Live(active: bool, lastWrite: int, now: int): (r: bool)
    ensures r ==> active
    ensures 0 <= lastWrite <= now < Uint64Modulus ==> (r <==> active && now < lastWrite + StalenessMs)
  {
    active && (now - lastWrite) % Uint64Modulus < StalenessMs
  }

  /** The fields of a slot that a write reads or keeps, at one moment. */
  datatype SlotState = SlotState(channelBuffers: seq<seq<real>>, writePosition: int, writeSequence: int,
                                 sampleRate: real, numChannels: int, bufferSize: int)
  {
    /** A write of `channels` channels fits: two channel vectors, the cursor inside the ring, each written channel a full ring long. */
    ghost predicate Takes(channels: int)
    {
      && |channelBuffers| == MaxChannels
      && 0 <= writePosition < bufferSize
      && forall ch :: 0 <= ch < MinInt(channels, MaxChannels) ==> |channelBuffers[ch]| >= bufferSize
    }

    /** A read into `channels` channels fits: the cursor inside the ring, each channel read a full ring long. */
    ghost predicate Gives(channels: int)
    {
      && 0 <= writePosition < bufferSize
      && MinInt(channels, numChannels) <= |channelBuffers|
      && forall ch :: 0 <= ch < MinInt(channels, numChannels) ==> |channelBuffers[ch]| >= bufferSize
    }
  }

  /** One pair slot (`SharedAudioData`). */
  class SharedAudioData {
    var channelBuffers: seq<seq<real>>
    var writePosition: int
    var writeSequence: int
    var sampleRate: real
    var numChannels: int
    var beforeInstanceActive: bool
    var lastWriteTime: int
    var bufferSize: int

    /** Two channel vectors; the cursor and the unsigned counters hold values of their C++ types. */
    ghost predicate Valid()
      reads this
    {
      && |channelBuffers| == MaxChannels
      && 0 <= writePosition
      && 0 <= numChannels
      && 0 <= writeSequence < Uint64Modulus
      && 0 <= lastWriteTime < Uint64Modulus
    }

    /**
     * A block with `channels` channels can be written: the cursor lies inside the ring and
     * every channel the write touches is at least `bufferSize` long.  `resize` only resizes
     * the channels it was asked for, so this does not follow from `Valid`.
     */
    ghost predicate Writable(channels: int)
      reads this
    {
      Valid() && State().Takes(channels)
    }

    /** A read into a destination with `channels` channels stays inside the slot's channel vectors. */
    ghost predicate Readable(channels: int)
      reads this
    {
      Valid() && State().Gives(channels)
    }

    /** This slot's fields as a value. */
    ghost function State(): SlotState
      reads this
    {
      SlotState(channelBuffers, writePosition, writeSequence, sampleRate, numChannels, bufferSize)
    }

    /**
     * The slot holds what a write of the first `numSamples` samples of `source` at `now`
     * leaves in a slot that was `before`: the ring size, channel count and rate as they
     * were; the first two channels of `source` (at most) written into their rings at the
     * old cursor, the other channel kept; the cursor advanced modulo the ring size; the
     * 64-bit sequence counter bumped with wrap-around; `now` stamped; the slot live.
     */
    ghost predicate Wrote(before: SlotState, source: array2<real>, numSamples: int, now: int)
      requires before.Takes(source.Length0)
      requires 0 <= numSamples <= source.Length1
      reads this, source
    {
      var written := MinInt(source.Length0, MaxChannels);
      && bufferSize == before.bufferSize && numChannels == before.numChannels && sampleRate == before.sampleRate
      && |channelBuffers| == MaxChannels
      && (forall ch :: 0 <= ch < MaxChannels ==>
            channelBuffers[ch] ==
              if ch < written
              then RingWrite(before.channelBuffers[ch], before.writePosition, before.bufferSize, Row(source, ch, numSamples))
              else before.channelBuffers[ch])
      && writePosition == Cursor(before.writePosition, numSamples, before.bufferSize)
      && writeSequence == (before.writeSequence + 1) % Uint64Modulus
      && lastWriteTime == now
      && beforeInstanceActive
    }

    /**
     * The body of `writeSamples` once the slot is chosen: the first `numSamples` samples of
     * each channel the slot takes are written from the cursor on, the cursor advances, the
     * sequence counter wraps as a `uint64_t`, and the slot is stamped live at `now`.
     */
    method Write(source: array2<real>, numSamples: int, now: int)
      requires Writable(source.Length0)
      requires 0 <= numSamples <= source.Length1
      requires 0 <= now < Uint64Modulus
      modifies this
      ensures Valid()
      ensures Wrote(old(State()), source, numSamples, now)
    {
      WriteChannels(source, numSamples);
      Advance(numSamples, now);
    }

    /** The channel loop of `writeSamples`: every channel the slot takes is written at the cursor. */
    method WriteChannels(source: array2<real>, numSamples: int)
      requires Writable(source.Length0)
      requires 0 <= numSamples <= source.Length1
      modifies this`channelBuffers
      ensures |channelBuffers| == MaxChannels
      ensures forall ch :: 0 <= ch < MaxChannels ==>
        channelBuffers[ch] ==
          if ch < MinInt(source.Length0, MaxChannels)
          then RingWrite(old(channelBuffers[ch]), writePosition, bufferSize, Row(source, ch, numSamples))
          else old(channelBuffers[ch])
    {
      var channels := MinInt(source.Length0, MaxChannels);
      var ch := 0;
      while ch < channels
        invariant 0 <= ch <= channels
        invariant |channelBuffers| == MaxChannels
        invariant forall c :: 0 <= c < MaxChannels ==>
          channelBuffers[c] ==
            if c < ch then RingWrite(old(channelBuffers[c]), writePosition, bufferSize, Row(source, c, numSamples))
            else old(channelBuffers[c])
      {
        WriteChannel(ch, source, numSamples, writePosition);
        ch := ch + 1;
      }
    }

    /**
     * The bookkeeping after the write: the cursor advances by `numSamples` modulo the
     * buffer size, the sequence counter wraps, and the slot is stamped live at `now`.
     */
    method Advance(numSamples: int, now: int)
      requires 0 <= writePosition < bufferSize && 0 <= numSamples
      requires 0 <= now < Uint64Modulus
      modifies this`writePosition, this`writeSequence, this`lastWriteTime, this`beforeInstanceActive
      ensures writePosition == Cursor(old(writePosition), numSamples, bufferSize)
      ensures writeSequence == (old(writeSequence) + 1) % Uint64Modulus
      ensures lastWriteTime == now
      ensures beforeInstanceActive
    {
      writePosition := (writePosition + numSamples) % bufferSize;
      writeSequence := (writeSequence + 1) % Uint64Modulus;
      lastWriteTime := now;
      beforeInstanceActive := true;
    }

    /**
     * The inner loop of `writeSamples` for one channel: `numSamples` samples of channel `ch`
     * of `source` go to consecutive slots from `writePos`, wrapping at the buffer size.
     */
    method WriteChannel(ch: int, source: array2<real>, numSamples: int, writePos: int)
      requires |channelBuffers| == MaxChannels && 0 <= ch < MaxChannels && ch < source.Length0
      requires 0 <= writePos < bufferSize <= |channelBuffers[ch]|
      requires 0 <= numSamples <= source.Length1
      modifies this`channelBuffers
      ensures channelBuffers ==
        old(channelBuffers)[ch := RingWrite(old(channelBuffers[ch]), writePos, bufferSize, Row(source, ch, numSamples))]
    {
      var pos := writePos;
      CursorZero(writePos, bufferSize);
      var i := 0;
      while i < numSamples
        invariant 0 <= i <= numSamples
        invariant pos == Cursor(writePos, i, bufferSize)
        invariant channelBuffers ==
          old(channelBuffers)[ch := RingWrite(old(channelBuffers[ch]), writePos, bufferSize, Row(source, ch, i))]
      {
        assert Row(source, ch, i + 1)[..i] == Row(source, ch, i);
        channelBuffers := channelBuffers[ch := channelBuffers[ch][pos := source[ch, i]]];
        CursorStep(writePos, i, bufferSize);
        pos := (pos + 1) % bufferSize;
        i := i + 1;
      }
    }

    /** A fresh slot: two silent channels of 48000 samples, cursors at 0, not live. */
    constructor ()
      ensures Valid()
      ensures channelBuffers == [Zeros(DefaultBufferSize), Zeros(DefaultBufferSize)]
      ensures bufferSize == DefaultBufferSize && numChannels == 2 && sampleRate == 48000.0
      ensures writePosition == 0 && writeSequence == 0
      ensures !beforeInstanceActive && lastWriteTime == 0
    {
      channelBuffers := [Zeros(DefaultBufferSize), Zeros(DefaultBufferSize)];
      writePosition := 0;
      writeSequence := 0;
      sampleRate := 48000.0;
      numChannels := 2;
      beforeInstanceActive := false;
      lastWriteTime := 0;
      bufferSize := DefaultBufferSize;
    }

    /** `resize`: records the new size and channel count, and resizes only the first `channels` vectors. */
    method Resize(newSize: int, channels: int)
      requires Valid()
      requires newSize >= 0 && channels >= 0
      modifies this
      ensures Valid()
      ensures bufferSize == newSize && numChannels == channels
      ensures forall ch :: 0 <= ch < MaxChannels ==>
        channelBuffers[ch] == if ch < channels then Resized(old(channelBuffers[ch]), newSize) else old(channelBuffers[ch])
      ensures writePosition == old(writePosition) && writeSequence == old(writeSequence)
      ensures sampleRate == old(sampleRate)
      ensures beforeInstanceActive == old(beforeInstanceActive) && lastWriteTime == old(lastWriteTime)
    {
      bufferSize := newSize;
      numChannels := channels;
      var ch := 0;
      while ch < channels && ch < MaxChannels
        invariant 0 <= ch <= MaxChannels
        invariant ch <= channels || ch == 0
        invariant |channelBuffers| == MaxChannels
        invariant forall c :: 0 <= c < MaxChannels ==>
          channelBuffers[c] == if c < ch then Resized(old(channelBuffers[c]), newSize) else old(channelBuffers[c])
        invariant writePosition == old(writePosition) && writeSequence == old(writeSequence)
        invariant beforeInstanceActive == old(beforeInstanceActive) && lastWriteTime == old(lastWriteTime)
        invariant bufferSize == newSize && numChannels == channels && sampleRate == old(sampleRate)
      {
        channelBuffers := channelBuffers[ch := Resized(channelBuffers[ch], newSize)];
        ch := ch + 1;
      }
    }

    /** `clear`: silences every channel vector (keeping its length) and resets both cursors. */
    method Clear()
      requires Valid()
      modifies this
      ensures Valid()
      ensures forall ch :: 0 <= ch < MaxChannels ==> channelBuffers[ch] == Zeros(|old(channelBuffers[ch])|)
      ensures writePosition == 0 && writeSequence == 0
      ensures bufferSize == old(bufferSize) && numChannels == old(numChannels) && sampleRate == old(sampleRate)
      ensures beforeInstanceActive == old(beforeInstanceActive) && lastWriteTime == old(lastWriteTime)
    {
      var ch := 0;
      while ch < MaxChannels
        invariant 0 <= ch <= MaxChannels
        invariant |channelBuffers| == MaxChannels
        invariant forall c :: 0 <= c < MaxChannels ==>
          channelBuffers[c] == if c < ch then Zeros(|old(channelBuffers[c])|) else old(channelBuffers[c])
        invariant writePosition == old(writePosition) && writeSequence == old(writeSequence)
        invariant bufferSize == old(bufferSize) && numChannels == old(numChannels) && sampleRate == old(sampleRate)
        invariant beforeInstanceActive == old(beforeInstanceActive) && lastWriteTime == old(lastWriteTime)
      {
        channelBuffers := channelBuffers[ch := Zeros(|channelBuffers[ch]|)];
        ch := ch + 1;
      }
      writePosition := 0;
      writeSequence := 0;
    }
  }

  /**
   * The destination after a read-back: channels below `channels` get the `n` samples read
   * from the ring at `start`; every other sample of the destination keeps its value.
   */
  function ReadInto(dest: seq<seq<real>>, rings: seq<seq<real>>, channels: int, start: int, size: int, n: nat): (r: seq<seq<real>>)
    requires 0 < size
    requires forall ch :: 0 <= ch < |dest| ==> n <= |dest[ch]|
    requires channels <= |rings|
    requires forall ch :: 0 <= ch < channels ==> size <= |rings[ch]|
    ensures |r| == |dest|
    ensures forall ch :: 0 <= ch < |dest| ==> |r[ch]| == |dest[ch]|
  {
    seq(|dest|, ch requires 0 <= ch < |dest| =>
      if ch < channels then RingRead(rings[ch], start, size, n) + dest[ch][n..] else dest[ch])
  }

  /** Reading back twice with nothing written in between gives the same destination as reading once. */
  lemma ReadIntoIdempotent(dest: seq<seq<real>>, rings: seq<seq<real>>, channels: int, start: int, size: int, n: nat)
    requires 0 < size
    requires forall ch :: 0 <= ch < |dest| ==> n <= |dest[ch]|
    requires channels <= |rings|
    requires forall ch :: 0 <= ch < channels ==> size <= |rings[ch]|
    ensures ReadInto(ReadInto(dest, rings, channels, start, size, n), rings, channels, start, size, n)
         == ReadInto(dest, rings, channels, start, size, n)
  {
    var once := ReadInto(dest, rings, channels, start, size, n);
    var twice := ReadInto(once, rings, channels, start, size, n);
    forall ch | 0 <= ch < |dest|
      ensures twice[ch] == once[ch]
    {
      if ch < channels {
        assert once[ch][n..] == dest[ch][n..];
      }
    }
  }

  /** The registry (`SharedBufferManager`): slot `k` serves pair ID `k + 1`. */
  class SharedBufferManager {
    const buffers: seq<SharedAudioData>

    /** Sixteen distinct, well-formed slots. */
    ghost predicate Valid()
      reads this, buffers
    {
      && |buffers| == MaxPairIds
      && (forall i, j :: 0 <= i < j < MaxPairIds ==> buffers[i] != buffers[j])
      && (forall i :: 0 <= i < MaxPairIds ==> buffers[i].Valid())
    }

    /** The slot of a pair ID (`getBuffer`). */
    function Slot(pairId: int): (d: SharedAudioData)
      requires Valid() && ValidPairId(pairId)
      reads this, buffers
      ensures d in buffers
    {
      buffers[pairId - 1]
    }

    /** The set of slots an operation on `pairId` may touch: that ID's slot, or none for an ID outside 1..16. */
    function Footprint(pairId: int): (s: set<SharedAudioData>)
      requires |buffers| == MaxPairIds
      reads this
      ensures ValidPairId(pairId) ==> s == {buffers[pairId - 1]}
      ensures !ValidPairId(pairId) ==> s == {}
    {
      if ValidPairId(pairId) then {buffers[pairId - 1]} else {}
    }

    constructor ()
      ensures Valid()
      ensures fresh(buffers)
      ensures forall k :: 0 <= k < MaxPairIds ==>
        && buffers[k].channelBuffers == [Zeros(DefaultBufferSize), Zeros(DefaultBufferSize)]
        && buffers[k].bufferSize == DefaultBufferSize && buffers[k].numChannels == 2
        && buffers[k].writePosition == 0 && buffers[k].writeSequence == 0
        && !buffers[k].beforeInstanceActive && buffers[k].lastWriteTime == 0
    {
      var slots: seq<SharedAudioData> := [];
      while |slots| < MaxPairIds
        invariant |slots| <= MaxPairIds
        invariant forall i, j :: 0 <= i < j < |slots| ==> slots[i] != slots[j]
        invariant forall i :: 0 <= i < |slots| ==> fresh(slots[i])
        invariant forall k :: 0 <= k < |slots| ==>
          && slots[k].Valid()
          && slots[k].channelBuffers == [Zeros(DefaultBufferSize), Zeros(DefaultBufferSize)]
          && slots[k].bufferSize == DefaultBufferSize && slots[k].numChannels == 2
          && slots[k].writePosition == 0 && slots[k].writeSequence == 0
          && !slots[k].beforeInstanceActive && slots[k].lastWriteTime == 0
      {
        var slot := new SharedAudioData();
        slots := slots + [slot];
      }
      buffers := slots;
    }

    /**
     * `writeSamples`: publishes the first `numSamples` samples of up to two channels of
     * `source` into the pair's ring at its write cursor, then advances the cursor modulo
     * the ring size, bumps the 64-bit write-sequence counter, stamps `now` and marks the
     * slot live.  An ID outside 1..16 changes nothing.
     */
    method WriteSamples(pairId: int, source: array2<real>, numSamples: int, now: int)
      requires Valid()
      requires 0 <= numSamples <= source.Length1
      requires 0 <= now < Uint64Modulus
      requires ValidPairId(pairId) ==> buffers[pairId - 1].Writable(source.Length0)
      modifies Footprint(pairId)
      ensures Valid()
      ensures ValidPairId(pairId) ==> buffers[pairId - 1].Wrote(old(buffers[pairId - 1].State()), source, numSamples, now)
    {
      if pairId < 1 || pairId > MaxPairIds {
        return;
      }
      buffers[pairId - 1].Write(source, numSamples, now);
    }

    /**
     * `readSamples`: copies `numSamples` samples per channel, for the channels both the
     * destination and the slot have, from the pair's ring into `dest`, starting
     * `numSamples + latencyOffset` samples behind the write cursor (wrapped into the ring).
     * The registry is not changed; other samples of `dest` keep their values; an ID outside
     * 1..16 leaves `dest` as it was.
     */
    method ReadSamples(pairId: int, dest: array2<real>, numSamples: int, latencyOffset: int)
      requires Valid()
      requires 0 <= numSamples <= dest.Length1
      requires ValidPairId(pairId) ==> buffers[pairId - 1].Readable(dest.Length0)
      modifies dest
      ensures !ValidPairId(pairId) ==> Block(dest) == old(Block(dest))
      ensures ValidPairId(pairId) ==>
        var d := buffers[pairId - 1];
        Block(dest) == ReadInto(old(Block(dest)), d.channelBuffers, MinInt(dest.Length0, d.numChannels),
                                ReadStart(d.writePosition, numSamples, latencyOffset, d.bufferSize),
                                d.bufferSize, numSamples)
    {
      if pairId < 1 || pairId > MaxPairIds {
        return;
      }
      var data: SharedAudioData := buffers[pairId - 1];
      var numChannels := MinInt(dest.Length0, data.numChannels);
      var bufSize := data.bufferSize;
      var writePos := data.writePosition;

      var readPos := writePos - numSamples - latencyOffset;
      while readPos < 0
        invariant readPos % bufSize == (writePos - numSamples - latencyOffset) % bufSize
        invariant unchanged(dest)
        decreases -readPos
      {
        ModShift(readPos, 1, bufSize);
        readPos := readPos + bufSize;
      }
      readPos := readPos % bufSize;
      assert readPos == ReadStart(writePos, numSamples, latencyOffset, bufSize);

      ghost var before := Block(dest);
      var ch := 0;
      while ch < numChannels
        invariant 0 <= ch <= numChannels
        invariant forall c, i :: 0 <= c < dest.Length0 && 0 <= i < dest.Length1 ==>
          dest[c, i] == if c < ch && i < numSamples then data.channelBuffers[c][Cursor(readPos, i, bufSize)] else before[c][i]
      {
        var pos := readPos;
        CursorZero(readPos, bufSize);
        var i := 0;
        while i < numSamples
          invariant 0 <= i <= numSamples
          invariant pos == Cursor(readPos, i, bufSize)
          invariant forall c, j :: 0 <= c < dest.Length0 && 0 <= j < dest.Length1 ==>
            dest[c, j] == if (c < ch && j < numSamples) || (c == ch && j < i)
                          then data.channelBuffers[c][Cursor(readPos, j, bufSize)] else before[c][j]
        {
          dest[ch, i] := data.channelBuffers[ch][pos];
          CursorStep(readPos, i, bufSize);
          pos := (pos + 1) % bufSize;
          i := i + 1;
        }
        ch := ch + 1;
      }
      ghost var expected := ReadInto(before, data.channelBuffers, numChannels, readPos, bufSize, numSamples);
      forall c | 0 <= c < dest.Length0
        ensures Block(dest)[c] == expected[c]
      {
        forall j | 0 <= j < dest.Length1
          ensures Block(dest)[c][j] == expected[c][j]
        {
          if c < numChannels && j < numSamples {
            assert expected[c][j] == RingRead(data.channelBuffers[c], readPos, bufSize, numSamples)[j];
          }
        }
      }
      assert Block(dest) == expected;
    }

    /**
     * `isBeforeInstanceActive`: the pair ID is in 1..16 and its slot is live at `now`.
     */
    function IsBeforeInstanceActive(pairId: int, now: int): (r: bool)
      requires Valid()
      reads this, buffers
      ensures r <==> ValidPairId(pairId) && Live(Slot(pairId).beforeInstanceActive, Slot(pairId).lastWriteTime, now)
    {
      ValidPairId(pairId) && Live(buffers[pairId - 1].beforeInstanceActive, buffers[pairId - 1].lastWriteTime, now)
    }

    /** `setBeforeInstanceInactive`: clears the pair's liveness flag and nothing else. */
    method SetBeforeInstanceInactive(pairId: int)
      requires Valid()
      modifies Footprint(pairId)
      ensures Valid()
      ensures ValidPairId(pairId) ==>
        var d := buffers[pairId - 1];
        && !d.beforeInstanceActive
        && d.channelBuffers == old(d.channelBuffers)
        && d.writePosition == old(d.writePosition) && d.writeSequence == old(d.writeSequence)
        && d.lastWriteTime == old(d.lastWriteTime) && d.bufferSize == old(d.bufferSize)
        && d.numChannels == old(d.numChannels) && d.sampleRate == old(d.sampleRate)
      ensures forall t :: !IsBeforeInstanceActive(pairId, t)
    {
      if pairId >= 1 && pairId <= MaxPairIds {
        buffers[pairId - 1].beforeInstanceActive := false;
      }
    }

    /**
     * `prepareBuffer`: sizes the pair's ring to one second at `sampleRate` (truncated),
     * resizing the first `numChannels` channel vectors, silences every channel vector and
     * resets both cursors.  Liveness is untouched.  An ID outside 1..16 changes nothing.
     */
    method PrepareBuffer(pairId: int, sampleRate: real, numChannels: int)
      requires Valid()
      requires numChannels >= 0
      requires ValidPairId(pairId) ==> sampleRate >= 0.0
      modifies Footprint(pairId)
      ensures Valid()
      ensures ValidPairId(pairId) ==>
        var d := buffers[pairId - 1];
        var newSize := Trunc(sampleRate * BufferLengthSeconds);
        && d.bufferSize == newSize && d.numChannels == numChannels && d.sampleRate == sampleRate
        && (forall ch :: 0 <= ch < MaxChannels ==>
              d.channelBuffers[ch] == Zeros(if ch < numChannels then newSize else |old(d.channelBuffers[ch])|))
        && d.writePosition == 0 && d.writeSequence == 0
        && d.beforeInstanceActive == old(d.beforeInstanceActive) && d.lastWriteTime == old(d.lastWriteTime)
    {
      if pairId < 1 || pairId > MaxPairIds {
        return;
      }
      var data: SharedAudioData := buffers[pairId - 1];
      var newSize := Trunc(sampleRate * BufferLengthSeconds);
      data.Resize(newSize, numChannels);
      data.sampleRate := sampleRate;
      data.Clear();
    }
  }

  /**
   * After `prepareBuffer` with a rate of at least 1 Hz and one or two channels, the slot
   * accepts writes and reads of that many channels.
   */
  lemma PreparedSlotUsable(d: SharedAudioData, channels: int)
    requires d.Valid()
    requires 1 <= channels <= MaxChannels
    requires d.bufferSize > 0 && d.writePosition == 0 && d.numChannels == channels
    requires forall ch :: 0 <= ch < channels ==> |d.channelBuffers[ch]| == d.bufferSize
    ensures d.Writable(channels) && d.Readable(channels)
  {
  }

  /**
   * Publish then read back: a write of `numSamples` samples that fit the ring, followed at
   * once by a read of `numSamples` samples with latency 0, returns exactly the written
   * samples, per channel and in order.
   */
  method PublishThenReadBack(registry: SharedBufferManager, pairId: int, source: array2<real>, dest: array2<real>,
                             numSamples: int, now: int)
    requires registry.Valid() && ValidPairId(pairId)
    requires 0 <= numSamples <= source.Length1 && numSamples <= dest.Length1
    requires numSamples <= registry.Slot(pairId).bufferSize
    requires 0 <= now < Uint64Modulus
    requires registry.Slot(pairId).Writable(source.Length0)
    requires registry.Slot(pairId).Readable(dest.Length0)
    requires source != dest
    modifies registry.Slot(pairId), dest
    ensures registry.Valid()
    ensures forall ch :: 0 <= ch < MinInt(MinInt(source.Length0, MaxChannels), MinInt(dest.Length0, registry.Slot(pairId).numChannels)) ==>
      Row(dest, ch, numSamples) == Row(source, ch, numSamples)
  {
    var d := registry.Slot(pairId);
    ghost var p := d.writePosition;
    ghost var size := d.bufferSize;
    ghost var initial := d.channelBuffers;
    ghost var destBefore := Block(dest);
    registry.WriteSamples(pairId, source, numSamples, now);
    assert d.Readable(dest.Length0);
    ghost var rings := d.channelBuffers;
    ghost var channels := MinInt(dest.Length0, d.numChannels);
    registry.ReadSamples(pairId, dest, numSamples, 0);
    ghost var after := Block(dest);
    forall ch | 0 <= ch < MinInt(MinInt(source.Length0, MaxChannels), channels)
      ensures Row(dest, ch, numSamples) == Row(source, ch, numSamples)
    {
      ReadIntoRoundTrip(after, destBefore, rings, channels, initial[ch], p, size, ch, Row(source, ch, numSamples));
      assert Row(dest, ch, numSamples) == after[ch][..numSamples];
    }
  }

  /** One channel of a read-back straight after a write returns the samples written to it. */
  lemma ReadIntoRoundTrip(r: seq<seq<real>>, dest: seq<seq<real>>, rings: seq<seq<real>>, channels: int,
                          buf: seq<real>, p: int, size: int, ch: int, src: seq<real>)
    requires 0 < size <= |buf| && |src| <= size
    requires forall c :: 0 <= c < |dest| ==> |src| <= |dest[c]|
    requires channels <= |rings|
    requires forall c :: 0 <= c < channels ==> size <= |rings[c]|
    requires 0 <= ch < channels && ch < |dest|
    requires rings[ch] == RingWrite(buf, p, size, src)
    requires r == ReadInto(dest, rings, channels, ReadStart(Cursor(p, |src|, size), |src|, 0, size), size, |src|)
    ensures r[ch][..|src|] == src
  {
    WriteThenReadRoundTrip(buf, p, size, src);
    assert r[ch] == RingRead(rings[ch], ReadStart(Cursor(p, |src|, size), |src|, 0, size), size, |src|) + dest[ch][|src|..];
  }
}
