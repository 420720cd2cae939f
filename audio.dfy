/**
 * Views of the audio containers the core works on.
 *
 * A `juce::AudioBuffer<float>` is modelled as an `array2<real>` indexed
 * `[channel, sample]`; a `std::vector<float>` that the source resizes is a `seq<real>`.
 */
module Audio {
  import opened Ring

  /** The first `n` samples of channel `ch`. */
  ghost function Row(a: array2<real>, ch: int, n: int): (r: seq<real>)
    requires 0 <= ch < a.Length0 && 0 <= n <= a.Length1
    reads a
    ensures |r| == n
    ensures forall i :: 0 <= i < n ==> r[i] == a[ch, i]
  {
    seq(n, i requires 0 <= i < n reads a => a[ch, i])
  }

  /** The whole buffer as a sequence of channels. */
  ghost function Block(a: array2<real>): (b: seq<seq<real>>)
    reads a
    ensures |b| == a.Length0
    ensures forall ch :: 0 <= ch < a.Length0 ==> b[ch] == Row(a, ch, a.Length1)
  {
    seq(a.Length0, ch requires 0 <= ch < a.Length0 reads a => Row(a, ch, a.Length1))
  }

  /** A buffer whose every sample matches a block of its shape is viewed as that block. */
  lemma BlockIs(a: array2<real>, b: seq<seq<real>>)
    requires |b| == a.Length0
    requires forall ch :: 0 <= ch < |b| ==> |b[ch]| == a.Length1
    requires forall ch, i :: 0 <= ch < |b| && 0 <= i < a.Length1 ==> a[ch, i] == b[ch][i]
    ensures Block(a) == b
  {
    forall ch | 0 <= ch < |b|
      ensures Block(a)[ch] == b[ch]
    {
      assert Block(a)[ch] == Row(a, ch, a.Length1);
    }
  }

  /** A silent block of `channels` channels of `n` samples each. */
  function Silence(channels: nat, n: nat): seq<seq<real>>
  {
    seq(channels, _ => Zeros(n))
  }

  /** `std::vector::resize(n, 0.0f)`: keep the first `n` samples, pad with zeros. */
  function Resized(v: seq<real>, n: nat): (r: seq<real>)
    ensures |r| == n
    ensures forall i :: 0 <= i < n && i < |v| ==> r[i] == v[i]
    ensures forall i :: |v| <= i < n ==> r[i] == 0.0
  {
    if n <= |v| then v[..n] else v + Zeros(n - |v|)
  }
}
