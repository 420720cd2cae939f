/**
 * Circular-buffer arithmetic shared by the pair-slot registry (SharedBuffer.h) and the
 * level analyser's squared-sample history (GainAnalyzer.h).
 *
 * Both components keep a cursor into a buffer of `size` slots and move it with
 * `pos = (pos + 1) % size` after every sample.  The functions here describe what such
 * loops produce, so that the imperative methods can be specified by them and the
 * properties (a write followed by a read returns the block, the RMS window sees the
 * latest samples) can be proved once.
 */
module Ring {

  /** Sum of a sequence, accumulated front to back as the source's loops do. */
  function Sum(s: seq<real>): real
  {
    if s == [] then 0.0 else Sum(s[..|s| - 1]) + s[|s| - 1]
  }

  /** A sequence of `n` zero samples (what `std::vector::resize` pads with). */
  function Zeros(n: nat): (z: seq<real>)
    ensures |z| == n
    ensures forall i :: 0 <= i < n ==> z[i] == 0.0
  {
    seq(n, _ => 0.0)
  }

  /** The slot a cursor that starts at `start` reaches after `k` steps of `pos = (pos + 1) % size`. */
  function Cursor(start: int, k: int, size: int): (p: int)
    requires 0 < size
    ensures 0 <= p < size
  {
    (start + k) % size
  }

  /**
   * The buffer after writing `src` one sample after another, starting at slot `start`
   * and stepping the cursor modulo `size`.  Only the first `size` slots are addressed;
   * when `src` is longer than `size`, later samples overwrite earlier ones.
   */
  function RingWrite(buf: seq<real>, start: int, size: int, src: seq<real>): (r: seq<real>)
    requires 0 < size <= |buf|
    ensures |r| == |buf|
    decreases |src|
  {
    if src == [] then buf
    else RingWrite(buf, start, size, src[..|src| - 1])[Cursor(start, |src| - 1, size) := src[|src| - 1]]
  }

  /** The `n` samples read from slot `start` onwards, stepping the cursor modulo `size`. */
  function RingRead(buf: seq<real>, start: int, size: int, n: nat): (r: seq<real>)
    requires 0 < size <= |buf|
    ensures |r| == n
    ensures forall i :: 0 <= i < n ==> r[i] == buf[Cursor(start, i, size)]
  {
    seq(n, i requires 0 <= i < n => buf[Cursor(start, i, size)])
  }

  /**
   * Where a read of `n` samples, shifted back by `latency`, starts when the writer's cursor
   * is at `writePos`: the mathematical (never negative) remainder of `writePos - n - latency`.
   */
  function ReadStart(writePos: int, n: int, latency: int, size: int): (s: int)
    requires 0 < size
    ensures 0 <= s < size
  {
    (writePos - n - latency) % size
  }

  // ---------------------------------------------------------------------------
  // Modular arithmetic facts used by the proofs below.

  /** A positive multiple of a positive modulus is at least the modulus. */
  lemma {:induction false} MulAtLeast(m: int, t: int)
    requires 0 < m && 1 <= t
    ensures m * t >= m
    decreases t
  {
    if t > 1 {
      MulAtLeast(m, t - 1);
      assert m * t == m * (t - 1) + m;
    }
  }

  /** The remainder is determined by any decomposition `x == m * q + r` with `0 <= r < m`. */
  lemma ModUnique(x: int, q: int, r: int, m: int)
    requires 0 < m && 0 <= r < m
    requires x == m * q + r
    ensures x % m == r
  {
    var q0, r0 := x / m, x % m;
    assert x == m * q0 + r0;
    assert m * (q - q0) == r0 - r;
    if q > q0 {
      MulAtLeast(m, q - q0);
    } else if q < q0 {
      MulAtLeast(m, q0 - q);
    }
  }

  /** Adding a multiple of the modulus does not change the remainder. */
  lemma ModShift(x: int, q: int, m: int)
    requires 0 < m
    ensures (x + m * q) % m == x % m
  {
    var q0, r0 := x / m, x % m;
    assert x == m * q0 + r0;
    assert x + m * q == m * (q0 + q) + r0;
    ModUnique(x + m * q, q0 + q, r0, m);
  }

  /** Reducing a summand early does not change the final remainder. */
  lemma ModAddLeft(a: int, b: int, m: int)
    requires 0 < m
    ensures (a % m + b) % m == (a + b) % m
  {
    var q := a / m;
    assert a == m * q + a % m;
    assert a + b == (a % m + b) + m * q;
    ModShift(a % m + b, q, m);
  }

  /** Two cursors fewer than `m` steps apart never land on the same slot. */
  lemma ModDistinct(a: int, d: int, m: int)
    requires 0 < d < m
    ensures (a + d) % m != a % m
  {
    var qa, qd := a / m, (a + d) / m;
    assert a == m * qa + a % m;
    assert a + d == m * qd + (a + d) % m;
    if (a + d) % m == a % m {
      assert d == m * (qd - qa);
      if qd - qa >= 1 {
        MulAtLeast(m, qd - qa);
      } else if qd - qa <= -1 {
        MulAtLeast(m, qa - qd);
      }
    }
  }

  /** A cursor that has not moved is the start slot, when the start slot is in range. */
  lemma CursorZero(start: int, size: int)
    requires 0 <= start < size
    ensures Cursor(start, 0, size) == start
  {
    ModUnique(start, 0, start, size);
  }

  /** One more step of `pos = (pos + 1) % size` advances the cursor by one. */
  lemma CursorStep(start: int, k: int, size: int)
    requires 0 < size
    ensures (Cursor(start, k, size) + 1) % size == Cursor(start, k + 1, size)
  {
    ModAddLeft(start + k, 1, size);
  }

  // ---------------------------------------------------------------------------
  // What a ring write leaves in the buffer.

  /** When the block fits the ring, sample `k` of the block ends up at slot `(start + k) % size`. */
  lemma {:induction false} RingWriteAt(buf: seq<real>, start: int, size: int, src: seq<real>, k: int)
    requires 0 < size <= |buf|
    requires |src| <= size
    requires 0 <= k < |src|
    ensures RingWrite(buf, start, size, src)[Cursor(start, k, size)] == src[k]
    decreases |src|
  {
    var last := |src| - 1;
    if k < last {
      ModDistinct(start + k, last - k, size);
      assert start + k + (last - k) == start + last;
      RingWriteAt(buf, start, size, src[..last], k);
    }
  }

  /** A slot that no step of the write lands on keeps its previous sample. */
  lemma {:induction false} RingWriteElsewhere(buf: seq<real>, start: int, size: int, src: seq<real>, j: int)
    requires 0 < size <= |buf|
    requires 0 <= j < |buf|
    requires forall k :: 0 <= k < |src| ==> Cursor(start, k, size) != j
    ensures RingWrite(buf, start, size, src)[j] == buf[j]
    decreases |src|
  {
    if src != [] {
      var last := |src| - 1;
      assert Cursor(start, last, size) != j;
      RingWriteElsewhere(buf, start, size, src[..last], j);
    }
  }

  /** Slots at or beyond `size` are never addressed by a ring write. */
  lemma RingWriteBeyondSize(buf: seq<real>, start: int, size: int, src: seq<real>, j: int)
    requires 0 < size <= j < |buf|
    ensures RingWrite(buf, start, size, src)[j] == buf[j]
  {
    RingWriteElsewhere(buf, start, size, src, j);
  }

  /** Writing silence into a silent ring leaves it silent. */
  lemma {:induction false} RingWriteZeros(buf: seq<real>, start: int, size: int, src: seq<real>)
    requires 0 < size <= |buf|
    requires forall j :: 0 <= j < |buf| ==> buf[j] == 0.0
    requires forall k :: 0 <= k < |src| ==> src[k] == 0.0
    ensures forall j :: 0 <= j < |buf| ==> RingWrite(buf, start, size, src)[j] == 0.0
    decreases |src|
  {
    if src != [] {
      RingWriteZeros(buf, start, size, src[..|src| - 1]);
    }
  }

  /** Writing non-negative samples into a ring of non-negative samples keeps every slot non-negative. */
  lemma {:induction false} RingWriteNonNegative(buf: seq<real>, start: int, size: int, src: seq<real>)
    requires 0 < size <= |buf|
    requires forall j :: 0 <= j < |buf| ==> buf[j] >= 0.0
    requires forall k :: 0 <= k < |src| ==> src[k] >= 0.0
    ensures forall j :: 0 <= j < |buf| ==> RingWrite(buf, start, size, src)[j] >= 0.0
    decreases |src|
  {
    if src != [] {
      RingWriteNonNegative(buf, start, size, src[..|src| - 1]);
    }
  }

  // ---------------------------------------------------------------------------
  // Reading back what was written.

  /**
   * After writing a block that fits the ring, with the cursor left just past it, a read of
   * `n` samples shifted back by `latency` returns the block's samples
   * `[|src| - n - latency, |src| - latency)`, in order.
   */
  lemma ReadBackWindow(buf: seq<real>, start: int, size: int, src: seq<real>, n: nat, latency: nat)
    requires 0 < size <= |buf|
    requires |src| <= size
    requires n + latency <= |src|
    ensures RingRead(RingWrite(buf, start, size, src),
                     ReadStart((start + |src|) % size, n, latency, size), size, n)
         == src[|src| - n - latency .. |src| - latency]
  {
    var w := RingWrite(buf, start, size, src);
    var base := |src| - n - latency;
    var s := ReadStart((start + |src|) % size, n, latency, size);
    ReadStartAfterWrite(start, |src|, n, latency, size);
    var r := RingRead(w, s, size, n);
    forall i | 0 <= i < n
      ensures r[i] == src[base + i]
    {
      CursorRebase(start, base, i, size);
      RingWriteAt(buf, start, size, src, base + i);
    }
    assert r == src[base .. base + n];
  }

  /** The read start computed from the cursor left by a write of `len` samples, expressed as a cursor of that write. */
  lemma ReadStartAfterWrite(start: int, len: int, n: int, latency: int, size: int)
    requires 0 < size
    ensures ReadStart((start + len) % size, n, latency, size) == Cursor(start, len - n - latency, size)
  {
    ModAddLeft(start + len, -(n + latency), size);
  }

  /** Stepping `i` more slots from the cursor reached after `base` steps is stepping `base + i` slots. */
  lemma CursorRebase(start: int, base: int, i: int, size: int)
    requires 0 < size
    ensures Cursor(Cursor(start, base, size), i, size) == Cursor(start, base + i, size)
  {
    ModAddLeft(start + base, i, size);
  }

  /** Round trip: writing a block that fits the ring and reading the same number of samples back with no latency returns the block. */
  lemma WriteThenReadRoundTrip(buf: seq<real>, start: int, size: int, src: seq<real>)
    requires 0 < size <= |buf|
    requires |src| <= size
    ensures RingRead(RingWrite(buf, start, size, src),
                     ReadStart((start + |src|) % size, |src|, 0, size), size, |src|) == src
  {
    ReadBackWindow(buf, start, size, src, |src|, 0);
  }

  // ---------------------------------------------------------------------------
  // Sums over a ring window.

  /** Sum of `count` ring slots from `start` onwards, accumulated in the order the source's loop visits them. */
  function RingSum(buf: seq<real>, start: int, size: int, count: nat): real
    requires 0 < size <= |buf|
  {
    if count == 0 then 0.0
    else RingSum(buf, start, size, count - 1) + buf[Cursor(start, count - 1, size)]
  }

  /** A ring sum is the plain sum of the samples a ring read of the same span returns. */
  lemma {:induction false} RingSumIsSumOfRead(buf: seq<real>, start: int, size: int, count: nat)
    requires 0 < size <= |buf|
    ensures RingSum(buf, start, size, count) == Sum(RingRead(buf, start, size, count))
  {
    if count > 0 {
      RingSumIsSumOfRead(buf, start, size, count - 1);
      var r := RingRead(buf, start, size, count);
      assert r[..count - 1] == RingRead(buf, start, size, count - 1);
    }
  }

  /** The sum of non-negative samples is non-negative. */
  lemma {:induction false} SumNonNegative(s: seq<real>)
    requires forall i :: 0 <= i < |s| ==> s[i] >= 0.0
    ensures Sum(s) >= 0.0
  {
    if s != [] {
      SumNonNegative(s[..|s| - 1]);
    }
  }

  /** The sum of silence is zero. */
  lemma {:induction false} SumZeros(s: seq<real>)
    requires forall i :: 0 <= i < |s| ==> s[i] == 0.0
    ensures Sum(s) == 0.0
  {
    if s != [] {
      SumZeros(s[..|s| - 1]);
    }
  }

  /**
   * Summing the `n` slots behind the cursor after a write of at most `size` values gives
   * the sum of the last `n` values written.
   */
  lemma WindowSumAfterWrite(buf: seq<real>, start: int, src: seq<real>, n: nat)
    requires 0 < |buf|
    requires n <= |src| <= |buf|
    ensures RingSum(RingWrite(buf, start, |buf|, src), ReadStart(Cursor(start, |src|, |buf|), n, 0, |buf|), |buf|, n)
         == Sum(src[|src| - n..])
  {
    var size := |buf|;
    var written := RingWrite(buf, start, size, src);
    var s := ReadStart(Cursor(start, |src|, size), n, 0, size);
    assert s == ReadStart((start + |src|) % size, n, 0, size);
    ReadBackWindow(buf, start, size, src, n, 0);
    assert src[|src| - n - 0 .. |src| - 0] == src[|src| - n..];
    assert RingRead(written, s, size, n) == src[|src| - n..];
    RingSumIsSumOfRead(written, s, size, n);
  }
}
