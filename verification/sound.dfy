/** sound_utils.py: peak normalisation of a sample buffer and the
    sample-wise summation that `play_chord` performs before normalising.
    Samples are reals: numpy float64 and int16 values are both exact reals
    here, and a float-to-int16 cast is truncation toward zero. */
module Sound {
  import opened Outcomes

  /** The largest int16 magnitude, and the default target amplitude. */
  const Int16Max: int := 32767

  function Abs(x: real): real
  {
    if x < 0.0 then -x else x
  }

  predicate IsIntegral(x: real)
  {
    x == x.Floor as real
  }

  /** Conversion of a float to an integer type: truncation toward zero. */
  function Trunc(x: real): (n: int)
    ensures Abs(n as real) <= Abs(x) < Abs(n as real) + 1.0
    ensures x >= 0.0 ==> n >= 0
    ensures x <= 0.0 ==> n <= 0
  {
    if x >= 0.0 then x.Floor else -((-x).Floor)
  }

  lemma TruncIntegral(x: real)
    requires IsIntegral(x)
    ensures Trunc(x) as real == x
  {
    var n := x.Floor;
    if x < 0.0 {
      assert -x == (-n) as real;
      assert (-x).Floor == -n;
    }
  }

  /** `np.max(np.abs(w))` of a non-empty buffer. */
  function Peak(w: seq<real>): (p: real)
    requires |w| > 0
    ensures forall i :: 0 <= i < |w| ==> Abs(w[i]) <= p
    ensures exists i :: 0 <= i < |w| && Abs(w[i]) == p
  {
    if |w| == 1 then Abs(w[0])
    else
      var rest := Peak(w[1..]);
      assert forall i :: 1 <= i < |w| ==> w[i] == w[1..][i - 1];
      if Abs(w[0]) >= rest then Abs(w[0]) else rest
  }

  /** A buffer is silent exactly when its peak is zero. */
  lemma SilentIffPeakZero(w: seq<real>)
    requires |w| > 0
    ensures Peak(w) == 0.0 <==> forall i :: 0 <= i < |w| ==> w[i] == 0.0
  {
    if forall i :: 0 <= i < |w| ==> w[i] == 0.0 {
      var i :| 0 <= i < |w| && Abs(w[i]) == Peak(w);
    }
  }

  /** One sample scaled so that the peak reaches the target, before truncation. */
  function Scaled(x: real, peak: real, target: int): real
    requires peak != 0.0
  {
    x / peak * target as real
  }

  /** `normalize_waveform`: scale so that the peak magnitude becomes the
      target amplitude, then cast to int16 (truncation toward zero); a
      silent buffer is returned as it is, and an empty one makes `np.max`
      fail. */
  function Normalize(w: seq<real>, target: int): (r: Result<seq<real>>)
    requires -Int16Max <= target <= Int16Max
    ensures r.Err? <==> |w| == 0
    ensures r.Err? ==> r.error == EmptyPeak
    ensures r.Ok? ==> |r.value| == |w|
    ensures r.Ok? && Peak(w) == 0.0 ==> r.value == w
    ensures r.Ok? && Peak(w) != 0.0 ==> forall i :: 0 <= i < |w| ==>
      && IsIntegral(r.value[i])
      && Abs(r.value[i]) <= Abs(target as real)
      && Abs(r.value[i]) <= Abs(Scaled(w[i], Peak(w), target)) < Abs(r.value[i]) + 1.0
      && (Scaled(w[i], Peak(w), target) >= 0.0 ==> r.value[i] >= 0.0)
      && (Scaled(w[i], Peak(w), target) <= 0.0 ==> r.value[i] <= 0.0)
    ensures r.Ok? && Peak(w) != 0.0 ==> forall i :: 0 <= i < |w| ==>
      && (w[i] == Peak(w) ==> r.value[i] == target as real)
      && (w[i] == -Peak(w) ==> r.value[i] == -(target as real))
  {
    if |w| == 0 then Err(EmptyPeak)
    else
      var peak := Peak(w);
      if peak == 0.0 then Ok(w)
      else
        var out := seq(|w|, i requires 0 <= i < |w| => Trunc(Scaled(w[i], peak, target)) as real);
        assert peak > 0.0 by {
          assert Abs(w[0]) <= peak;
        }
        assert forall i :: 0 <= i < |w| ==> SampleFacts(w[i], peak, target, out[i]) by {
          forall i | 0 <= i < |w|
            ensures SampleFacts(w[i], peak, target, out[i])
          {
            ScaledSample(w[i], peak, target);
          }
        }
        Ok(out)
  }

  /** The facts the contract of `Normalize` states about one output sample. */
  predicate SampleFacts(x: real, peak: real, target: int, n: real)
    requires peak != 0.0
  {
    && IsIntegral(n)
    && Abs(n) <= Abs(target as real)
    && Abs(n) <= Abs(Scaled(x, peak, target)) < Abs(n) + 1.0
    && (Scaled(x, peak, target) >= 0.0 ==> n >= 0.0)
    && (Scaled(x, peak, target) <= 0.0 ==> n <= 0.0)
    && (x == peak ==> n == target as real)
    && (x == -peak ==> n == -(target as real))
  }

  lemma ScaledSample(x: real, peak: real, target: int)
    requires peak > 0.0 && Abs(x) <= peak
    ensures SampleFacts(x, peak, target, Trunc(Scaled(x, peak, target)) as real)
  {
    var s := Scaled(x, peak, target);
    ScaledBound(x, peak, target);
    var n := Trunc(s);
    assert Abs(n as real) <= Abs(target as real);
    if x == peak || x == -peak {
      ScaledAtPeak(x, peak, target);
      TruncIntegral(target as real);
      TruncIntegral(-(target as real));
    }
  }

  lemma ScaledBound(x: real, peak: real, target: int)
    requires peak > 0.0 && Abs(x) <= peak
    ensures Abs(Scaled(x, peak, target)) <= Abs(target as real)
  {
    DivBound(x, peak);
    MulBound(x / peak, target as real);
  }

  lemma ScaledAtPeak(x: real, peak: real, target: int)
    requires peak > 0.0
    ensures x == peak ==> Scaled(x, peak, target) == target as real
    ensures x == -peak ==> Scaled(x, peak, target) == -(target as real)
  {
    DivSelf(peak);
  }

  lemma DivBound(x: real, p: real)
    requires p > 0.0 && Abs(x) <= p
    ensures -1.0 <= x / p <= 1.0
  {
    var q := x / p;
    assert q * p == x;
    MulSign(q - 1.0, p);
    MulSign(-1.0 - q, p);
    assert (q - 1.0) * p == q * p - p;
    assert (-1.0 - q) * p == -p - q * p;
  }

  lemma DivSelf(p: real)
    requires p > 0.0
    ensures p / p == 1.0
    ensures (-p) / p == -1.0
  {
    var q := p / p;
    DivMul(p, p);
    MulSign(q - 1.0, p);
    MulSign(1.0 - q, p);
    assert (q - 1.0) * p == q * p - p;
    assert (1.0 - q) * p == p - q * p;
    var m := (-p) / p;
    DivMul(-p, p);
    MulSign(m + 1.0, p);
    MulSign(-1.0 - m, p);
    assert (m + 1.0) * p == m * p + p;
    assert (-1.0 - m) * p == -p - m * p;
  }

  lemma DivMul(x: real, p: real)
    requires p > 0.0
    ensures (x / p) * p == x
  {
  }

  lemma MulSign(a: real, b: real)
    ensures a > 0.0 && b > 0.0 ==> a * b > 0.0
    ensures a >= 0.0 && b >= 0.0 ==> a * b >= 0.0
  {
  }

  lemma MulBound(q: real, t: real)
    requires -1.0 <= q <= 1.0
    ensures Abs(q * t) <= Abs(t)
  {
    var at := Abs(t);
    MulSign(1.0 - q, at);
    MulSign(1.0 + q, at);
    assert (1.0 - q) * at == at - q * at;
    assert (1.0 + q) * at == at + q * at;
    if t >= 0.0 {
      assert q * t == q * at;
    } else {
      assert q * t == -(q * at);
    }
  }

  /** Every sample of a normalised buffer fits the int16 range. */
  lemma NormalizeFitsInt16(w: seq<real>, target: int)
    requires |w| > 0 && -Int16Max <= target <= Int16Max
    ensures forall i :: 0 <= i < |w| ==> Abs(Normalize(w, target).value[i]) <= Int16Max as real
  {
    if Peak(w) == 0.0 {
      SilentIffPeakZero(w);
    }
  }

  /** A normalised non-silent buffer peaks exactly at a positive target. */
  lemma NormalizedPeak(w: seq<real>, target: int)
    requires |w| > 0 && 0 < target <= Int16Max && Peak(w) != 0.0
    ensures Peak(Normalize(w, target).value) == target as real
  {
    var p := Peak(w);
    var y := Normalize(w, target).value;
    var t := target as real;
    assert Abs(t) == t;
    assert forall k :: 0 <= k < |y| ==> Abs(y[k]) <= t;
    var i :| 0 <= i < |w| && Abs(w[i]) == p;
    if w[i] == p {
      assert y[i] == t;
    } else {
      assert w[i] == -p;
      assert y[i] == -t;
    }
    PeakReached(y, i, t);
  }

  /** A bound every sample respects and one sample reaches is the peak. */
  lemma PeakReached(y: seq<real>, i: int, t: real)
    requires 0 <= i < |y| && Abs(y[i]) == t
    requires forall k :: 0 <= k < |y| ==> Abs(y[k]) <= t
    ensures Peak(y) == t
  {
    var j :| 0 <= j < |y| && Abs(y[j]) == Peak(y);
  }

  /** A buffer of integral samples whose peak already is the target is
      left unchanged by normalisation. */
  lemma NormalizeFixesPeaked(y: seq<real>, target: int)
    requires |y| > 0 && 0 < target <= Int16Max
    requires Peak(y) == target as real
    requires forall k :: 0 <= k < |y| ==> IsIntegral(y[k])
    ensures Normalize(y, target) == Ok(y)
  {
    var t := target as real;
    var out := Normalize(y, target).value;
    forall k | 0 <= k < |y|
      ensures out[k] == y[k]
    {
      DivMulCancel(y[k], t);
      TruncIntegral(y[k]);
    }
    assert out == y;
  }

  lemma DivMulCancel(y: real, t: real)
    requires t != 0.0
    ensures y / t * t == y
  {
  }

  /** With a positive target, normalising twice is normalising once: the
      first pass already puts the peak at the target and every sample on
      an integer. */
  lemma NormalizeIdempotent(w: seq<real>, target: int)
    requires |w| > 0 && 0 < target <= Int16Max
    ensures Normalize(Normalize(w, target).value, target) == Normalize(w, target)
  {
    if Peak(w) != 0.0 {
      NormalizedPeak(w, target);
      NormalizeFixesPeaked(Normalize(w, target).value, target);
    }
  }

  /** What buffer `w` adds at sample `i`: nothing past its end. */
  function Contribution(w: seq<real>, i: nat): real
  {
    if i < |w| then w[i] else 0.0
  }

  /** The sum at sample `i` of every buffer long enough to reach it, added
      in list order. */
  function SampleSum(ws: seq<seq<real>>, i: nat): real
  {
    if |ws| == 0 then 0.0 else SampleSum(ws[..|ws| - 1], i) + Contribution(ws[|ws| - 1], i)
  }

  /** `max(len(wf) for wf in waveforms)` of a non-empty list. */
  function MaxLength(ws: seq<seq<real>>): (m: nat)
    requires |ws| > 0
    ensures forall k :: 0 <= k < |ws| ==> |ws[k]| <= m
    ensures exists k :: 0 <= k < |ws| && |ws[k]| == m
  {
    if |ws| == 1 then |ws[0]|
    else
      var rest := MaxLength(ws[1..]);
      assert forall k :: 1 <= k < |ws| ==> ws[k] == ws[1..][k - 1];
      if |ws[0]| >= rest then |ws[0]| else rest
  }

  /** `combined[:len(wf)] += wf`. */
  function AddPrefix(combined: seq<real>, wf: seq<real>): (r: seq<real>)
    requires |wf| <= |combined|
    ensures |r| == |combined|
    ensures forall i :: 0 <= i < |r| ==> r[i] == combined[i] + Contribution(wf, i)
  {
    seq(|combined|, i requires 0 <= i < |combined| => combined[i] + Contribution(wf, i))
  }

  /** The zero-padded sample-wise sum of the buffers, as long as the longest. */
  function Mix(ws: seq<seq<real>>): (m: seq<real>)
    requires |ws| > 0
    ensures |m| == MaxLength(ws)
    ensures forall i :: 0 <= i < |m| ==> m[i] == SampleSum(ws, i)
  {
    seq(MaxLength(ws), i requires 0 <= i < MaxLength(ws) => SampleSum(ws, i))
  }

  /** The summation loop of `play_chord`: a zero buffer as long as the
      longest input, into which each input is added over its own length. */
  method MixBuffers(ws: seq<seq<real>>) returns (r: Result<seq<real>>)
    ensures r.Err? <==> |ws| == 0
    ensures r.Err? ==> r.error == EmptyMax
    ensures r.Ok? ==> forall k :: 0 <= k < |ws| ==> |ws[k]| <= |r.value|
    ensures r.Ok? ==> exists k :: 0 <= k < |ws| && |ws[k]| == |r.value|
    ensures r.Ok? ==> forall i :: 0 <= i < |r.value| ==> r.value[i] == SampleSum(ws, i)
  {
    if |ws| == 0 {
      return Err(EmptyMax);
    }
    var maxLength := MaxLength(ws);
    var combined := seq(maxLength, _ => 0.0);
    var k := 0;
    while k < |ws|
      invariant 0 <= k <= |ws|
      invariant |combined| == maxLength
      invariant forall i :: 0 <= i < maxLength ==> combined[i] == SampleSum(ws[..k], i)
    {
      combined := AddPrefix(combined, ws[k]);
      assert ws[..k + 1][..k] == ws[..k];
      k := k + 1;
    }
    assert ws[..k] == ws;
    return Ok(combined);
  }

  /** The buffer `play_chord` hands to the audio device: the mix of all
      note buffers, normalised to the full int16 amplitude. */
  method ChordBuffer(ws: seq<seq<real>>) returns (r: Result<seq<real>>)
    ensures r.Err? <==> |ws| == 0 || forall k :: 0 <= k < |ws| ==> |ws[k]| == 0
    ensures |ws| == 0 ==> r == Err(EmptyMax)
    ensures r.Ok? ==> forall k :: 0 <= k < |ws| ==> |ws[k]| <= |r.value|
    ensures r.Ok? ==> exists k :: 0 <= k < |ws| && |ws[k]| == |r.value|
    ensures r.Ok? ==> forall i :: 0 <= i < |r.value| ==> Abs(r.value[i]) <= Int16Max as real
    ensures |ws| > 0 ==> r == Normalize(Mix(ws), Int16Max)
    ensures r.Ok? ==> Peak(r.value) == Int16Max as real || forall i :: 0 <= i < |r.value| ==> r.value[i] == 0.0
  {
    var mixed := MixBuffers(ws);
    if mixed.Err? {
      return Err(mixed.error);
    }
    var m := mixed.value;
    var n := MaxLength(ws);
    var a :| 0 <= a < |ws| && |ws[a]| == |m|;
    var b :| 0 <= b < |ws| && |ws[b]| == n;
    assert |m| == n by {
      assert |ws[a]| <= n && |ws[b]| <= |m|;
    }
    assert m == Mix(ws);
    r := Normalize(m, Int16Max);
    if |m| > 0 {
      NormalizeFitsInt16(m, Int16Max);
      if Peak(m) == 0.0 {
        SilentIffPeakZero(m);
      } else {
        NormalizedPeak(m, Int16Max);
      }
    }
  }

  /** Mixing a single buffer gives that buffer back, sample for sample. */
  lemma MixSingle(w: seq<real>, i: nat)
    requires i < |w|
    ensures SampleSum([w], i) == w[i]
  {
    assert [w][..0] == [];
  }

  /** A buffer too short to reach sample `i` adds nothing there. */
  lemma {:induction false} ShortBufferAddsNothing(ws: seq<seq<real>>, w: seq<real>, i: nat)
    requires |w| <= i
    ensures SampleSum(ws + [w], i) == SampleSum(ws, i)
  {
    assert (ws + [w])[..|ws|] == ws;
  }
}
