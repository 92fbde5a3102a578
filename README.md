# MusicVizualizer core in Dafny

MusicVizualizer is a single browser script (`src/app.js`) that plays a
user-chosen audio file and deforms a wireframe sphere in time with it. Almost
all of it drives three.js, lil-gui and the Web Audio API. This project models
the two parts of it that are logic of its own:

- **The audio session** (`session.dfy`, module `Session`). The script's
  module-level variables `audioContext`, `analyser`, `dataArray`, `isPlaying`,
  `currentObjectUrl` and `currentFileName`, the status label's text and the
  audio element's `src` become fields of the class `AudioSession`. The lazy
  `setupAudio` and the four event handlers (file `change`, `play`, `pause`,
  `ended`) become its methods.
  - Object URLs are abstract `Handle`s. The ghost set `live` holds the handles
    created and not yet revoked. The ghost sequence `revoked` logs every
    revocation in order.
  - The invariant `Valid()` says that the audio graph is built at most once.
    It also says that the only live handle is the current URL, that every
    other handle ever created has been revoked, and that no handle is revoked
    twice.
  - `SongScenario` runs the handlers in sequence: a file that is not audio is
    refused; an audio file is loaded, paused, played to the end and loaded
    again.
- **The per-frame arithmetic of `animate`** (`frame.dfy`, module `Frame`, and
  `visualizer.dfy`, module `Visualizer`).
  - The summing loop over the byte spectrum and its normalisation to a level
    in [0, 1].
  - The 0.92 decay of the level when nothing plays.
  - The strength `noiseFloor + audioLevel * distortion`.
  - The vertex loop. It rewrites every vertex of the position buffer from the
    base positions captured at startup (`Sphere.basePositions`, a `const`)
    and from the current normals. The old contents of the buffer are never
    read.
  - `Visualizer.Animate` is one frame, with its rendering left out.

`text.dfy` (module `Text`) holds `Includes`, the model of
`String.prototype.includes`, which the `change` handler uses to test a file's
MIME type.

Real numbers stand for the script's doubles. `Math.sin` and `Math.sqrt`
(inside `Vector3.normalize`) are passed in as function parameters (`sine`,
`sqrt`). The phase `elapsed*2 + x*0.4 + y*0.6 + z*0.8`, the zero-length
guard of `normalize` and the displacement formula are written out in
`Frame.DisplacedVertex`.

Inputs that come from the browser become parameters:
- the selected file (`Option<File>`);
- whether the awaited `audioElement.play()` resolves (`playResolves`);
- whether a new AudioContext starts suspended (`startsSuspended`);
- the spectrum that `getByteFrequencyData` delivers (`spectrum`);
- the clock's elapsed time (`elapsed`).

### Behaviour of the code worth noting

- **Rejected `play()`.** The `change` handler awaits `audioElement.play()`
  without a `catch`. When that promise rejects, lines 161-162 do not run, so
  `isPlaying` and the status keep the values they had. If a previous file was
  playing, `isPlaying` stays true. `OnFileSelected` states exactly this.
- **Normals.** The vertex loop reads `basePositions` and never the previous
  positions, but `normals` is the geometry's live normal attribute, which
  `computeVertexNormals()` (line 242) rewrites each frame from the displaced
  positions. The normals a frame uses therefore come from the previous
  frame's shape. The model takes the normals as the current contents of a
  separate array, and the "no accumulation" guarantee of `Frame.Displace`
  covers the position buffer only.
- **Status texts.** The code's texts are in Portuguese
  ("Tocando: <name>", "Música pausada", "Reprodução finalizada",
  "Por favor, selecione um arquivo de áudio válido."). The model uses them
  verbatim.

## Model

| member | source | states |
|---|---|---|
| `Text.Includes` | src/app.js:143 | true exactly when the needle occurs at some index of the string (an if-and-only-if with the occurrence predicate), so the MIME-type test accepts precisely types mentioning "audio" |
| `Session.ScenarioTypes` | src/app.js:143 | "text/plain" is refused and "audio/mpeg" is accepted by the MIME-type test |
| `Session.AudioSession.constructor` | src/app.js:112-117 | the initial session: no context, no analyser, no buffer, not playing, no URL, empty file name, no handle created or revoked |
| `Session.AudioSession.SetupAudio` | src/app.js:119-137 | afterwards the context exists and is running and the analyser has fftSize 2048 and smoothing 0.82; a context or graph already built is kept (same buffer, creation counts unchanged); a new buffer is fresh, 1024 zero bytes; the invariant (each built at most once) is kept |
| `Session.AudioSession.OnFileSelected` | src/app.js:139-163 | no file: nothing changes; a file whose type does not include "audio": only the status becomes the invalid-file text; an audio file: the state described by `Loaded` (previous URL revoked first, one fresh live handle, name and element source set, playing state and status set only if play resolves) |
| `Session.AudioSession.Load` | src/app.js:148-162 | from any valid state, reaches `Loaded`: graph ready and reused, old URL logged as revoked, a never-before-created handle becomes the only live one, `isPlaying` and the status change only when play resolves |
| `Session.AudioSession.ReleaseUrl` | src/app.js:150-153 | the current URL, if any, is appended to the revocation log and is no longer live; no URL is current afterwards; nothing is revoked when there is no URL |
| `Session.AudioSession.CreateUrl` | src/app.js:155-156 | returns a handle that was neither live nor revoked before, and it becomes the current and only live handle |
| `Session.AudioSession.OnPlay` | src/app.js:165-171 | the graph is set up, `isPlaying` becomes true, the status becomes "Tocando: <name>" only when a file name is remembered, and nothing else changes |
| `Session.AudioSession.OnPause` | src/app.js:173-176 | `isPlaying` false, status "Música pausada", nothing else changes |
| `Session.AudioSession.OnEnded` | src/app.js:178-186 | `isPlaying` false, status "Reprodução finalizada", the current URL (if any) revoked and no handle live, file name cleared |
| `Session.AtMostOneLive` | src/app.js:150-156 | in every valid state at most one handle is live, it is the current URL, and every other handle ever created has been revoked |
| `Session.RevokedOnce` | src/app.js:181-184 | no handle appears twice in the revocation log, and the current URL has never been revoked |
| `Frame.Sum` | src/app.js:205-208 | the sum of n bytes lies in [0, 255·n] |
| `Frame.SumBins` | src/app.js:205-208 | the loop's result equals the sum of all bins of the array |
| `Frame.SumZeroIff` | src/app.js:205-208 | the sum is 0 if and only if every bin is 0 |
| `Frame.SumFullIff` | src/app.js:205-208 | the sum is 255·n if and only if every bin is 255 |
| `Frame.Level` | src/app.js:209-210 | for a non-empty spectrum the normalised average lies in [0, 1] |
| `Frame.LevelExtremes` | src/app.js:209-210 | the level is 0 exactly on a silent spectrum and 1 exactly on a saturated one |
| `Frame.AverageLevel` | src/app.js:204-210 | the summing loop followed by `avg / 255` yields the spectrum's level, which lies in [0, 1] |
| `Frame.Decay` | src/app.js:212 | from a level in [0, 1] the result stays in [0, 1], is never larger, is strictly smaller when positive, and is 0 only from 0 |
| `Frame.DecayedIsPower` | src/app.js:211-213 | n idle frames multiply the level by 0.92^n |
| `Frame.DecayedStaysBelow` | src/app.js:211-213 | over any number of idle frames the level stays in [0, 1] and never increases |
| `Frame.Strength` | src/app.js:215 | the strength is the noise floor alone when the level is 0, and for a level in [0, 1] and a non-negative distortion it lies between the floor and the floor plus the distortion |
| `Frame.StrengthBounds` | src/app.js:215 | with the panel's slider ranges and a level in [0, 1], the strength lies between the noise floor and floor + distortion, within [0, 6.5], and equals the floor in silence |
| `Frame.DisplacedVertex` | src/app.js:228-238 | the displaced vertex (phase from the base position, normalised radial direction with the zero-length guard of `Vector3.normalize`) is back on its base position whenever the sine of its phase is 0 |
| `Frame.RestAtZeroStrength` | src/app.js:228-238 | with zero strength every vertex lands exactly on its base position |
| `Frame.SilenceIgnoresDistortion` | src/app.js:215-238 | at level 0 any two distortion settings produce the same vertex |
| `Frame.Displace` | src/app.js:218-239 | every one of the `count` vertices of the buffer is rewritten to the displaced base vertex, computed from the base positions, the current normals and the strength; the previous buffer contents play no part |
| `Visualizer.NextLevel` | src/app.js:203-213 | the next level lies in [0, 1]; without analyser or playback it is the decayed level (never larger, 0 only from 0); while playing it is 0 exactly on a silent spectrum |
| `Visualizer.Animate` | src/app.js:197-239 | one frame: the buffer receives the spectrum while an analyser exists and playback is on, and keeps its bytes on any other frame; the level becomes `NextLevel` and stays in the valid range; every vertex is rewritten from the base shape with the strength of the new level |
| `Visualizer.Params.constructor` | src/app.js:75-86 | the initial distortion 2.8, noise floor 0.12 and level 0, within the slider ranges |
| `Visualizer.Sphere.constructor` | src/app.js:55-56 | the base positions are a snapshot of the initial position attribute, held in a `const` that no method can change |

## Left out

- Rendering: the three.js scene, renderer, camera, lights, OrbitControls, EffectComposer and bloom pass (src/app.js:13-68). The per-frame bloom and clear-colour pushes and `composer.render` (247-254) are left out too. They are calls into foreign libraries.
- The lil-gui panel (src/app.js:88-110) is UI. Its slider ranges for `distortion` and `noiseFloor` appear as the invariant of `Visualizer.Params` and as the precondition of `Frame.StrengthBounds`.
- The colour, emissive and wireframe parameters: only the panel's `onChange` callbacks (src/app.js:91-99) read them, to push them into the material.
- The bloom and rotation-speed parameters: only the rendering and rotation part of the frame step reads them.
- The rotation increments (src/app.js:244-245) and `computeVertexNormals` (242). They are floating-point geometry. The normals are an input of `Frame.Displace` instead.
- Frame.Decay: "strictly smaller while positive" and the exact 0.92^n of `Frame.DecayedIsPower` hold for real numbers only. In IEEE doubles `level * 0.92` stops decreasing among the subnormals (k·2^-1074 with k ≤ 6 rounds back to itself), so the script's level never quite reaches 0.
- `Math.sin` and `Math.sqrt` are uninterpreted function parameters. Float32 storage, double rounding and NaN are not modelled.
- `clock.getDelta()` and `requestAnimationFrame` scheduling (src/app.js:197-200). The elapsed time is a parameter, and `Animate` is one call.
- The window `click` handler (188-192) and the `resize` handler (259-268) are host event plumbing.
- The choice between `AudioContext` and `webkitAudioContext`, and the wiring of the media element source to the analyser and the destination. They appear only as the create-once counters in `GraphValid`.
- `audioElement.load()` (159) and the browser events that `play()`/`load()` fire themselves. Each handler is a method that the environment calls.
- Session.AudioSession.SetupAudio: `audioContext.resume()` returns a promise. The model takes the context to be running as soon as `setupAudio` returns.
- The `async`/`await` interleaving of the `change` handler with other events. The handler runs to completion with the outcome of `play()` as a parameter.
- Frame.Displace: the per-vertex offset is exact real arithmetic over the opaque `sine` and `sqrt`. The model does not capture floating-point drift.
