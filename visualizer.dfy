/** The per-frame step of src/app.js (`animate`): update the audio level,
    from the analyser while playing and by decay otherwise, then rewrite the
    sphere's position buffer from its base shape. */
module Visualizer {
  import opened Frame
  import opened Session

  /** The tunable values of `params` that the frame step reads or writes,
      with the panel's slider ranges as the invariant. */
  class Params {
    var distortion: real
    var noiseFloor: real
    var audioLevel: real

    ghost predicate Valid()
      reads this
    {
      && 0.0 <= distortion <= 6.0
      && 0.0 <= noiseFloor <= 0.5
      && 0.0 <= audioLevel <= 1.0
    }

    constructor ()
      ensures Valid()
      ensures distortion == 2.8 && noiseFloor == 0.12 && audioLevel == 0.0
    {
      distortion, noiseFloor, audioLevel := 2.8, 0.12, 0.0;
    }
  }

  /** The sphere's geometry: the position and normal attributes (flat xyz
      buffers of `count` vertices) and the copy of the positions taken once
      at startup. */
  class Sphere {
    const count: nat
    const basePositions: seq<real>
    var positions: array<real>
    var normals: array<real>

    ghost predicate Valid()
      reads this
    {
      && positions.Length == 3 * count
      && normals.Length == 3 * count
      && |basePositions| == 3 * count
      && positions != normals
    }

    /** `basePositions` is a snapshot of the initial position attribute. */
    constructor (initialPositions: seq<real>, initialNormals: seq<real>, vertexCount: nat)
      requires |initialPositions| == 3 * vertexCount && |initialNormals| == 3 * vertexCount
      ensures Valid()
      ensures count == vertexCount && basePositions == initialPositions
      ensures positions[..] == initialPositions && normals[..] == initialNormals
      ensures fresh(positions) && fresh(normals)
    {
      count := vertexCount;
      basePositions := initialPositions;
      positions := new real[3 * vertexCount](i requires 0 <= i < 3 * vertexCount => initialPositions[i]);
      normals := new real[3 * vertexCount](i requires 0 <= i < 3 * vertexCount => initialNormals[i]);
    }
  }

  /** The level the frame step computes: the spectrum's level while an
      analyser exists and playback is on, the decayed previous level
      otherwise. */
  function NextLevel(hasAnalyser: bool, isPlaying: bool, spectrum: seq<byte>, level: real): (r: real)
    requires hasAnalyser ==> |spectrum| > 0
    requires 0.0 <= level <= 1.0
    ensures 0.0 <= r <= 1.0
    ensures !(hasAnalyser && isPlaying) ==> r <= level && (r == 0.0 <==> level == 0.0)
    ensures hasAnalyser && isPlaying ==>
      (r == 0.0 <==> forall i :: 0 <= i < |spectrum| ==> spectrum[i] == 0)
  {
    if hasAnalyser && isPlaying then
      LevelExtremes(spectrum);
      Level(spectrum)
    else
      Decay(level)
  }

  /** One call of `animate` without its rendering. `spectrum` is what
      getByteFrequencyData writes into `dataArray`; `elapsed` is the
      clock's elapsed time; `sine` and `sqrt` stand for Math.sin and
      Math.sqrt. */
  method Animate(session: AudioSession, params: Params, sphere: Sphere, spectrum: seq<byte>,
                 elapsed: real, sine: real -> real, sqrt: real -> real)
    requires session.Valid() && params.Valid() && sphere.Valid()
    requires session.dataArray != null ==> |spectrum| == session.dataArray.Length
    modifies session.dataArray, params`audioLevel, sphere.positions
    ensures params.Valid()
    ensures session.analyser.Some? && session.isPlaying ==> session.dataArray[..] == spectrum
    ensures session.dataArray != null && !(session.analyser.Some? && session.isPlaying) ==>
      session.dataArray[..] == old(session.dataArray[..])
    ensures params.audioLevel
      == NextLevel(session.analyser.Some?, session.isPlaying, spectrum, old(params.audioLevel))
    ensures forall i :: 0 <= i < sphere.count ==>
      VertexAt(sphere.positions[..], i)
        == DisplacedVertex(VertexAt(sphere.basePositions, i), VertexAt(sphere.normals[..], i),
                           Strength(params.noiseFloor, params.audioLevel, params.distortion),
                           elapsed, sine, sqrt)
  {
    if session.analyser.Some? && session.isPlaying {
      var data := session.dataArray;
      // analyser.getByteFrequencyData(dataArray)
      forall i | 0 <= i < data.Length {
        data[i] := spectrum[i];
      }
      assert data[..] == spectrum;
      var level := AverageLevel(data);
      params.audioLevel := level;
    } else {
      params.audioLevel := Decay(params.audioLevel);
    }
    var strength := Strength(params.noiseFloor, params.audioLevel, params.distortion);
    Displace(sphere.positions, sphere.normals, sphere.basePositions, sphere.count,
             strength, elapsed, sine, sqrt);
  }
}
