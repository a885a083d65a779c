/**
 * The fade of Experiment/GenStim.py: a fader array of ones whose first
 * `fade_samples` entries are overwritten by a rising ramp and whose last
 * `fade_samples` entries are then overwritten by the same ramp reversed, and
 * the stimulus multiplied by it elementwise with numpy's broadcasting.
 * The ramp's shape (sin² of a quarter period) is a parameter: only its value
 * at 0 matters to the lemmas.
 */
module FadeEnvelope {
  import opened Options

  /** Python 3's `round` on a float: to the nearest integer, ties to the even
      one. */
  function RoundHalfEven(x: real): (r: int)
    ensures r as real - 0.5 <= x <= r as real + 0.5
    ensures (x == r as real - 0.5 || x == r as real + 0.5) ==> r % 2 == 0
    ensures x == x.Floor as real ==> r == x.Floor
  {
    var f := x.Floor;
    var d := x - f as real;
    if d < 0.5 then f
    else if d > 0.5 then f + 1
    else if f % 2 == 0 then f
    else f + 1
  }

  /** `np.ones(n)` */
  function Ones(n: nat): (s: seq<real>)
    ensures |s| == n && forall i :: 0 <= i < n ==> s[i] == 1.0
  {
    seq(n, _ => 1.0)
  }

  /** `np.square(np.sin(0.5 * np.pi * np.arange(0, F) / F))`, with the sin²
      shape abstracted as `shape`, evaluated at `k / F`. */
  function Ramp(F: nat, shape: real -> real): (ramp: seq<real>)
    ensures |ramp| == F
    ensures F > 0 ==> ramp[0] == shape(0.0)
  {
    seq(F, k requires 0 <= k < F => shape(k as real / F as real))
  }

  /** `s[::-1]` */
  function Reverse(s: seq<real>): (r: seq<real>)
    ensures |r| == |s| && forall i :: 0 <= i < |s| ==> r[i] == s[|s| - 1 - i]
  {
    seq(|s|, i requires 0 <= i < |s| => s[|s| - 1 - i])
  }

  /** `a[lo:lo + len(v)] = v` on an array. */
  function Overwrite(a: seq<real>, lo: nat, v: seq<real>): (r: seq<real>)
    requires lo + |v| <= |a|
    ensures |r| == |a|
    ensures forall i :: 0 <= i < |a| ==> r[i] == if lo <= i < lo + |v| then v[i - lo] else a[i]
  {
    a[..lo] + v + a[lo + |v|..]
  }

  /** A slice bound of Python on a sequence of `n` items: a negative bound
      counts from the end, and the result is clamped to `[0, n]`. */
  function SliceBound(n: nat, b: int): (r: nat)
    ensures r <= n
  {
    if b < 0 then (if b + n < 0 then 0 else b + n) else if b > n then n else b
  }

  /** The number of items in the slice `[start:stop]` of `n` items. */
  function SliceLength(n: nat, start: int, stop: int): nat
  {
    var lo, hi := SliceBound(n, start), SliceBound(n, stop);
    if lo <= hi then hi - lo else 0
  }

  /** `np.arange(0, F)` has `F` samples, and none when `F` is not positive. */
  function RampLength(F: int): nat
  {
    if F < 0 then 0 else F
  }

  /** numpy assigns `v` items to a slice of `k` items when the lengths agree
      or when `v` is a single item broadcast over the slice. */
  predicate Assignable(v: nat, k: nat)
  {
    v == k || v == 1
  }

  /** The fade lengths for which both slice assignments succeed on a fader of
      `n` samples: the ramp (of `max(F, 0)` samples) must have the length of
      the slice `fader[0:F]`, or be a single sample that numpy broadcasts. */
  predicate FadeFits(n: nat, F: int)
    ensures FadeFits(n, F)
            <==> Assignable(RampLength(F), SliceLength(n, 0, F))
                 && Assignable(RampLength(F), SliceLength(n, n - F, n))
  {
    0 <= F <= n || (F < 0 && n + F <= 0) || (F == 1 && n == 0)
  }

  /** The fader after both slice assignments. For a negative fade both
      slices are empty; for `F == 1` on an empty fader they are too. */
  function Envelope(n: nat, F: int, ramp: seq<real>): (fader: seq<real>)
    requires FadeFits(n, F) && |ramp| == if F < 0 then 0 else F
    ensures |fader| == n
  {
    if 0 <= F <= n then Overwrite(Overwrite(Ones(n), 0, ramp), n - F, Reverse(ramp))
    else Ones(n)
  }

  /** `a * b` on one-dimensional arrays: elementwise on equal lengths, a
      single sample broadcast against the other array, otherwise the
      ValueError of incompatible shapes (None). */
  function Broadcast(a: seq<real>, b: seq<real>): (r: Option<seq<real>>)
    ensures r.Some? <==> |a| == |b| || |a| == 1 || |b| == 1
    ensures |a| == |b| ==> r == Some(seq(|a|, i requires 0 <= i < |a| => a[i] * b[i]))
    ensures |a| != |b| && |a| == 1 ==> r == Some(seq(|b|, i requires 0 <= i < |b| => a[0] * b[i]))
    ensures |a| != |b| && |b| == 1 ==> r == Some(seq(|a|, i requires 0 <= i < |a| => a[i] * b[0]))
    ensures r.Some? ==> |r.value| == if |a| == |b| || |b| == 1 then |a| else |b|
  {
    if |a| == |b| then Some(seq(|a|, i requires 0 <= i < |a| => a[i] * b[i]))
    else if |a| == 1 then Some(seq(|b|, i requires 0 <= i < |b| => a[0] * b[i]))
    else if |b| == 1 then Some(seq(|a|, i requires 0 <= i < |a| => a[i] * b[0]))
    else None
  }

  /** Sample by sample: the fade-out's reversed ramp over the last `F`
      samples, the ramp over the first `F` samples that it does not cover,
      and 1 elsewhere.  Where the two fades overlap the fade-out wins. */
  lemma EnvelopeAt(n: nat, F: nat, ramp: seq<real>, i: nat)
    requires F <= n && |ramp| == F && i < n
    ensures Envelope(n, F, ramp)[i]
            == if n - F <= i then ramp[n - 1 - i] else if i < F then ramp[i] else 1.0
  {
    var fadedIn := Overwrite(Ones(n), 0, ramp);
    assert fadedIn[i] == if i < F then ramp[i] else 1.0;
    var reversed := Reverse(ramp);
    assert Envelope(n, F, ramp) == Overwrite(fadedIn, n - F, reversed);
    if n - F <= i {
      assert reversed[i - (n - F)] == ramp[n - 1 - i];
    }
  }

  /** With a fade no longer than half the stimulus the envelope is
      symmetric: the fade-out mirrors the fade-in. */
  lemma EnvelopeSymmetric(n: nat, F: nat, ramp: seq<real>, i: nat)
    requires 2 * F <= n && |ramp| == F && i < n
    ensures Envelope(n, F, ramp)[i] == Envelope(n, F, ramp)[n - 1 - i]
  {
    EnvelopeAt(n, F, ramp, i);
    EnvelopeAt(n, F, ramp, n - 1 - i);
  }

  /** Samples outside both fades are multiplied by one, so they are unchanged. */
  lemma FadeKeepsMiddle(stim: seq<real>, F: nat, ramp: seq<real>, i: nat)
    requires F <= |stim| && |ramp| == F && F <= i < |stim| - F
    ensures Broadcast(stim, Envelope(|stim|, F, ramp)).value[i] == stim[i]
  {
    EnvelopeAt(|stim|, F, ramp, i);
  }

  /** A shape that starts at zero silences the last sample of any non-empty
      fade, and the first sample too unless the fade covers the whole
      stimulus (then the fade-out overwrites the whole fade-in and the first
      sample gets the ramp's last value). */
  lemma FadeSilencesEnds(stim: seq<real>, F: nat, shape: real -> real)
    requires 1 <= F <= |stim| && shape(0.0) == 0.0
    ensures var faded := Broadcast(stim, Envelope(|stim|, F, Ramp(F, shape))).value;
            faded[|stim| - 1] == 0.0 && (F < |stim| ==> faded[0] == 0.0)
  {
    var n, ramp := |stim|, Ramp(F, shape);
    EnvelopeAt(n, F, ramp, n - 1);
    EnvelopeAt(n, F, ramp, 0);
  }

  /** A fade of zero samples leaves the envelope all ones and the stimulus
      as it was. */
  lemma FadeZeroIsIdentity(stim: seq<real>, shape: real -> real)
    ensures Envelope(|stim|, 0, Ramp(0, shape)) == Ones(|stim|)
    ensures Broadcast(stim, Envelope(|stim|, 0, Ramp(0, shape))) == Some(stim)
  {
    var fader := Envelope(|stim|, 0, Ramp(0, shape));
    assert fader == Ones(|stim|);
    assert Broadcast(stim, fader).value == stim;
  }

  /** The two slice assignments of `fade` on a fader of ones: the ramp over
      the first `|ramp|` entries, then the reversed ramp over the last. */
  method WriteFades(fader: array<real>, ramp: seq<real>)
    requires |ramp| <= fader.Length && fader[..] == Ones(fader.Length)
    modifies fader
    ensures fader[..] == Envelope(fader.Length, |ramp|, ramp)
  {
    var n, F := fader.Length, |ramp|;
    // fade in
    forall i | 0 <= i < F {
      fader[i] := ramp[i];
    }
    assert fader[..] == Overwrite(Ones(n), 0, ramp);
    // fade out
    ghost var fadedIn := fader[..];
    forall j | 0 <= j < F {
      fader[n - F + j] := ramp[F - 1 - j];
    }
    assert fader[..] == Overwrite(fadedIn, n - F, Reverse(ramp));
  }

  /** The default sampling frequency of a stimulus generator, in Hz. */
  const DefaultSampleRate: real := 1000.0

  class GenStim {
    const fSamp: real
    var nSamp: nat
    var stim: seq<real>
    var fadeSamples: int

    constructor (fSamp: real := DefaultSampleRate)
      ensures this.fSamp == fSamp && nSamp == 0 && stim == [] && fadeSamples == 0
    {
      this.fSamp := fSamp;
      nSamp := 0;
      stim := [];
      fadeSamples := 0;
    }

    /** `fade`: stores the rounded fade length, builds the fader in an array
        and multiplies the stimulus by it.  `ok` is false for the ValueError
        of a slice assignment or of incompatible shapes; the rounded length is
        stored even then and the stimulus is left as it was. */
    method Fade(fadeSamples: real, shape: real -> real) returns (ok: bool)
      modifies this
      ensures this.fadeSamples == RoundHalfEven(fadeSamples)
      ensures nSamp == old(nSamp)
      ensures var F := this.fadeSamples;
              ok <==> FadeFits(nSamp, F)
                      && Broadcast(old(stim), Envelope(nSamp, F, Ramp(if F < 0 then 0 else F, shape))).Some?
      ensures ok ==> var F := this.fadeSamples;
                     stim == Broadcast(old(stim), Envelope(nSamp, F, Ramp(if F < 0 then 0 else F, shape))).value
      ensures !ok ==> stim == old(stim)
    {
      var F := RoundHalfEven(fadeSamples);
      this.fadeSamples := F;
      var n := nSamp;
      var ramp := Ramp(if F < 0 then 0 else F, shape);
      if !FadeFits(n, F) {
        return false;
      }
      var fader := new real[n](_ => 1.0);
      assert fader[..] == Ones(n);
      if 0 <= F <= n {
        WriteFades(fader, ramp);
      }
      var product := Broadcast(stim, fader[..]);
      if product.None? {
        return false;
      }
      stim := product.value;
      ok := true;
    }
  }
}
