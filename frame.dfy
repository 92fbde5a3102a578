/** The per-frame arithmetic of the render loop in src/app.js: the audio
    level taken from the analyser's byte spectrum, its decay while nothing
    plays, the deformation strength and the rewrite of every vertex of the
    sphere from its undisturbed base shape. Real numbers stand for the
    source's IEEE doubles (and for the Float32 position buffer). */
module Frame {

  /** One bin of a Uint8Array filled by getByteFrequencyData. */
  newtype byte = x: int | 0 <= x < 256

  const MaxByte: int := 255

  /** Retention factor applied to the level on every frame without playback. */
  const DecayFactor: real := 0.92

  // ---------------------------------------------------------------------
  // Audio level

  /** Sum of the bins, accumulated left to right as the source's loop does. */
  function Sum(s: seq<byte>): (total: int)
    ensures 0 <= total <= MaxByte * |s|
  {
    if s == [] then 0 else Sum(s[..|s| - 1]) + s[|s| - 1] as int
  }

  /** The summing loop over `dataArray`. */
  method SumBins(bins: array<byte>) returns (sum: int)
    ensures sum == Sum(bins[..])
  {
    sum := 0;
    var i := 0;
    while i < bins.Length
      invariant 0 <= i <= bins.Length
      invariant sum == Sum(bins[..i])
    {
      assert bins[..i + 1][..i] == bins[..i];
      sum := sum + bins[i] as int;
      i := i + 1;
    }
    assert bins[..bins.Length] == bins[..];
  }

  /** `avg = sum / length`, then `avg / 255`. */
  function Level(s: seq<byte>): (level: real)
    requires |s| > 0
    ensures 0.0 <= level <= 1.0
  {
    var n := |s| as real;
    var sum := Sum(s) as real;
    QuotientBounds(sum, n, 255.0);
    QuotientBounds(sum / n, 255.0, 1.0);
    (sum / n) / 255.0
  }

  /** A nonnegative quotient of a number at most `c` times its positive
      divisor lies in [0, c]. */
  lemma QuotientBounds(a: real, b: real, c: real)
    requires 0.0 < b && 0.0 <= a <= c * b
    ensures 0.0 <= a / b <= c
  {
    var q := a / b;
    assert q * b == a;
    assert (c - q) * b == c * b - a;
    assert (c - q) * b >= 0.0;
  }

  /** The playing branch of the render loop: sum the bins, then normalise. */
  method AverageLevel(bins: array<byte>) returns (level: real)
    requires bins.Length > 0
    ensures level == Level(bins[..])
    ensures 0.0 <= level <= 1.0
  {
    var sum := SumBins(bins);
    var avg := sum as real / bins.Length as real;
    level := avg / 255.0;
  }

  lemma {:induction false} SumZeroIff(s: seq<byte>)
    ensures Sum(s) == 0 <==> forall i :: 0 <= i < |s| ==> s[i] == 0
  {
    if s != [] {
      var p := s[..|s| - 1];
      SumZeroIff(p);
      if Sum(s) == 0 {
        forall i | 0 <= i < |s| ensures s[i] == 0 {
          if i < |s| - 1 { assert s[i] == p[i]; }
        }
      }
      if forall i :: 0 <= i < |s| ==> s[i] == 0 {
        assert forall i :: 0 <= i < |p| ==> p[i] == s[i];
      }
    }
  }

  lemma {:induction false} SumFullIff(s: seq<byte>)
    ensures Sum(s) == MaxByte * |s| <==> forall i :: 0 <= i < |s| ==> s[i] == 255
  {
    if s != [] {
      var p := s[..|s| - 1];
      SumFullIff(p);
      if Sum(s) == MaxByte * |s| {
        assert Sum(p) == MaxByte * |p|;
        forall i | 0 <= i < |s| ensures s[i] == 255 {
          if i < |s| - 1 { assert s[i] == p[i]; }
        }
      }
      if forall i :: 0 <= i < |s| ==> s[i] == 255 {
        assert forall i :: 0 <= i < |p| ==> p[i] == s[i];
      }
    }
  }

  /** The level is 0 exactly on a silent spectrum and 1 exactly on a
      saturated one. */
  lemma LevelExtremes(s: seq<byte>)
    requires |s| > 0
    ensures Level(s) == 0.0 <==> forall i :: 0 <= i < |s| ==> s[i] == 0
    ensures Level(s) == 1.0 <==> forall i :: 0 <= i < |s| ==> s[i] == 255
  {
    SumZeroIff(s);
    SumFullIff(s);
    var n := |s| as real;
    var sum := Sum(s) as real;
    var level := Level(s);
    assert level == (sum / n) / 255.0;
    assert level * 255.0 == sum / n;
    assert sum == level * 255.0 * n;
    assert level == 0.0 <==> sum == 0.0;
    assert level == 1.0 <==> sum == 255.0 * n by {
      if sum == 255.0 * n {
        assert sum / n == 255.0;
      }
    }
    assert sum == 255.0 * n <==> Sum(s) == MaxByte * |s|;
  }

  // ---------------------------------------------------------------------
  // Decay

  /** `params.audioLevel *= 0.92` on a frame without playback. */
  function Decay(level: real): (r: real)
    ensures 0.0 <= level ==> 0.0 <= r <= level
    ensures level <= 1.0 ==> r <= 1.0
    ensures r == 0.0 <==> level == 0.0
    ensures level > 0.0 ==> r < level
  {
    level * DecayFactor
  }

  /** The level after `n` consecutive frames without playback. */
  ghost function Decayed(level: real, n: nat): real
  {
    if n == 0 then level else Decay(Decayed(level, n - 1))
  }

  ghost function Power(x: real, n: nat): real
  {
    if n == 0 then 1.0 else x * Power(x, n - 1)
  }

  /** n idle frames multiply the level by 0.92^n. */
  lemma {:induction false} DecayedIsPower(level: real, n: nat)
    ensures Decayed(level, n) == level * Power(DecayFactor, n)
  {
    if n > 0 {
      DecayedIsPower(level, n - 1);
      calc {
        Decayed(level, n);
        Decayed(level, n - 1) * DecayFactor;
        (level * Power(DecayFactor, n - 1)) * DecayFactor;
        level * (DecayFactor * Power(DecayFactor, n - 1));
      }
    }
  }

  /** Decay keeps the level in [0, 1] and never raises it, however many
      idle frames pass. */
  lemma {:induction false} DecayedStaysBelow(level: real, m: nat, n: nat)
    requires 0.0 <= level <= 1.0
    requires m <= n
    ensures 0.0 <= Decayed(level, n) <= Decayed(level, m) <= level <= 1.0
  {
    if m < n {
      DecayedStaysBelow(level, m, n - 1);
    } else if m > 0 {
      DecayedStaysBelow(level, m - 1, m);
    }
  }

  // ---------------------------------------------------------------------
  // Deformation

  /** `params.noiseFloor + params.audioLevel * params.distortion`: the noise
      floor alone in silence, and at most the full distortion above it for a
      level in [0, 1]. */
  function Strength(noiseFloor: real, level: real, distortion: real): (s: real)
    ensures level == 0.0 ==> s == noiseFloor
    ensures 0.0 <= level <= 1.0 && 0.0 <= distortion ==> noiseFloor <= s <= noiseFloor + distortion
  {
    assert 0.0 <= level <= 1.0 && 0.0 <= distortion ==> 0.0 <= level * distortion <= 1.0 * distortion;
    noiseFloor + level * distortion
  }

  /** Within the panel's slider ranges and with a level in [0, 1], the
      strength lies between the noise floor and the floor plus the full
      distortion; in silence it is exactly the floor, whatever the
      distortion. */
  lemma StrengthBounds(noiseFloor: real, level: real, distortion: real)
    requires 0.0 <= noiseFloor <= 0.5 && 0.0 <= distortion <= 6.0
    requires 0.0 <= level <= 1.0
    ensures noiseFloor <= Strength(noiseFloor, level, distortion) <= noiseFloor + distortion
    ensures level == 0.0 ==> Strength(noiseFloor, level, distortion) == noiseFloor
    ensures 0.0 <= Strength(noiseFloor, level, distortion) <= 6.5
  {
  }

  datatype Vec3 = Vec3(x: real, y: real, z: real)

  /** The three components of vertex `i` in a flat xyz buffer. */
  function VertexAt(s: seq<real>, i: nat): Vec3
    requires 3 * i + 2 < |s|
  {
    Vec3(s[3 * i], s[3 * i + 1], s[3 * i + 2])
  }

  /** Argument of the sine: `elapsed * 2 + baseX * 0.4 + baseY * 0.6 + baseZ * 0.8`. */
  function Phase(elapsed: real, b: Vec3): real
  {
    elapsed * 2.0 + b.x * 0.4 + b.y * 0.6 + b.z * 0.8
  }

  /** Vector3.normalize: divide by the length, or by 1 when the length is 0.
      `sqrt` stands for Math.sqrt. */
  function Normalize(v: Vec3, sqrt: real -> real): Vec3
  {
    var len := sqrt(v.x * v.x + v.y * v.y + v.z * v.z);
    var d := if len == 0.0 then 1.0 else len;
    Vec3(v.x / d, v.y / d, v.z / d)
  }

  /** New position of one vertex: its base position pushed along the sum of
      its normal and its radial direction by `strength * sin(phase)`.
      `sine` stands for Math.sin. Whenever the sine passes through zero the
      vertex is back on its base position. */
  function DisplacedVertex(b: Vec3, n: Vec3, strength: real, elapsed: real,
                           sine: real -> real, sqrt: real -> real): (v: Vec3)
    ensures sine(Phase(elapsed, b)) == 0.0 ==> v == b
  {
    var displacement := strength * sine(Phase(elapsed, b));
    var r := Normalize(b, sqrt);
    Vec3(b.x + (n.x + r.x) * displacement,
         b.y + (n.y + r.y) * displacement,
         b.z + (n.z + r.z) * displacement)
  }

  /** With zero strength every vertex rests exactly on its base position. */
  lemma RestAtZeroStrength(b: Vec3, n: Vec3, elapsed: real, sine: real -> real, sqrt: real -> real)
    ensures DisplacedVertex(b, n, 0.0, elapsed, sine, sqrt) == b
  {
  }

  /** In silence the distortion setting has no effect on any vertex. */
  lemma SilenceIgnoresDistortion(b: Vec3, n: Vec3, noiseFloor: real, d1: real, d2: real,
                                 elapsed: real, sine: real -> real, sqrt: real -> real)
    ensures DisplacedVertex(b, n, Strength(noiseFloor, 0.0, d1), elapsed, sine, sqrt)
         == DisplacedVertex(b, n, Strength(noiseFloor, 0.0, d2), elapsed, sine, sqrt)
  {
  }

  /** The vertex loop: every vertex of `positions` is overwritten from the
      base shape and the current normals; the previous contents of
      `positions` play no part in the result. */
  method Displace(positions: array<real>, normals: array<real>, base: seq<real>, count: nat,
                  strength: real, elapsed: real, sine: real -> real, sqrt: real -> real)
    requires positions.Length == 3 * count && normals.Length == 3 * count && |base| == 3 * count
    requires positions != normals
    modifies positions
    ensures forall i :: 0 <= i < count ==>
      VertexAt(positions[..], i)
        == DisplacedVertex(VertexAt(base, i), VertexAt(normals[..], i), strength, elapsed, sine, sqrt)
  {
    var i := 0;
    while i < count
      invariant 0 <= i <= count
      invariant forall k :: 0 <= k < i ==>
        VertexAt(positions[..], k)
          == DisplacedVertex(VertexAt(base, k), VertexAt(normals[..], k), strength, elapsed, sine, sqrt)
    {
      var ix := i * 3;
      var b := Vec3(base[ix], base[ix + 1], base[ix + 2]);
      var n := Vec3(normals[ix], normals[ix + 1], normals[ix + 2]);
      var v := DisplacedVertex(b, n, strength, elapsed, sine, sqrt);
      ghost var before := positions[..];
      positions[ix] := v.x;
      positions[ix + 1] := v.y;
      positions[ix + 2] := v.z;
      forall k | 0 <= k < i
        ensures VertexAt(positions[..], k) == VertexAt(before, k)
      {
      }
      assert VertexAt(positions[..], i) == v;
      i := i + 1;
    }
  }
}
