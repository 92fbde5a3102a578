/** The audio session of src/app.js: the module-level variables that the
    file-input `change` handler and the audio element's `play`, `pause` and
    `ended` handlers update, and the lazy `setupAudio` initialiser.

    Object URLs are abstract handles. `nextHandle` stands for the freshness
    that URL.createObjectURL guarantees; the ghost set `live` holds the
    handles created and not yet revoked, and the ghost sequence `revoked`
    records every call of URL.revokeObjectURL in order. */
module Session {
  import opened Text
  import opened Frame

  datatype Option<T> = None | Some(value: T)

  type Handle = nat

  /** A File from the input's FileList: its name and its MIME type. */
  datatype File = File(name: string, mediaType: string)

  /** The two states of an AudioContext this program can observe. */
  datatype ContextState = Suspended | Running

  /** The settings the program gives the AnalyserNode. */
  datatype Analyser = Analyser(fftSize: nat, smoothingTimeConstant: real)

  const FftSize: nat := 2048
  const SmoothingTimeConstant: real := 0.82
  /** AnalyserNode.frequencyBinCount, half the FFT size. */
  const BinCount: nat := FftSize / 2

  const InvalidFileStatus: string := "Por favor, selecione um arquivo de áudio válido."
  const PausedStatus: string := "Música pausada"
  const EndedStatus: string := "Reprodução finalizada"

  function PlayingStatus(name: string): string
  {
    "Tocando: " + name
  }

  /** A file the `change` handler accepts: its MIME type mentions "audio". */
  predicate IsAudio(f: File)
  {
    Includes(f.mediaType, "audio")
  }

  /** Everything the handlers can change, as one value. */
  datatype SessionState = SessionState(
    audioContext: Option<ContextState>,
    analyser: Option<Analyser>,
    dataArray: array?<byte>,
    isPlaying: bool,
    currentObjectUrl: Option<Handle>,
    currentFileName: string,
    status: string,
    elementSource: Option<Handle>,
    nextHandle: Handle,
    live: set<Handle>,
    revoked: seq<Handle>)

  /** The revocation log after `if (currentObjectUrl)
      URL.revokeObjectURL(currentObjectUrl)`. */
  function RevokedAfterRelease(revoked: seq<Handle>, current: Option<Handle>): seq<Handle>
  {
    if current.Some? then revoked + [current.value] else revoked
  }

  /** The state after an audio file `f` has been loaded from `st`: the audio
      graph is ready, the previous URL (if any) is revoked, and a handle
      never created before becomes the current and only live one. The lines
      after the awaited play() run only when it resolves. */
  ghost predicate Loaded(st: SessionState, st': SessionState, f: File, playResolves: bool)
  {
    && st.nextHandle !in st.live && st.nextHandle !in st.revoked
    && st'.audioContext == Some(Running)
    && st'.analyser == Some(Analyser(FftSize, SmoothingTimeConstant))
    && st'.revoked == RevokedAfterRelease(st.revoked, st.currentObjectUrl)
    && st'.currentObjectUrl == Some(st.nextHandle)
    && st'.live == {st.nextHandle}
    && st'.nextHandle == st.nextHandle + 1
    && st'.elementSource == Some(st.nextHandle)
    && st'.currentFileName == f.name
    && st'.isPlaying == (playResolves || st.isPlaying)
    && st'.status == if playResolves then PlayingStatus(f.name) else st.status
  }

  class AudioSession {
    var audioContext: Option<ContextState>
    var analyser: Option<Analyser>
    var dataArray: array?<byte>
    var isPlaying: bool
    var currentObjectUrl: Option<Handle>
    var currentFileName: string
    /** The text of the status label. */
    var status: string
    /** The `src` of the audio element. */
    var elementSource: Option<Handle>
    /** The next handle URL.createObjectURL will return. */
    var nextHandle: Handle

    ghost var live: set<Handle>
    ghost var revoked: seq<Handle>
    /** How many AudioContexts and analyser graphs have been built. */
    ghost var contextsCreated: nat
    ghost var graphsCreated: nat

    ghost function State(): SessionState
      reads this
    {
      SessionState(audioContext, analyser, dataArray, isPlaying, currentObjectUrl,
                   currentFileName, status, elementSource, nextHandle, live, revoked)
    }

    /** setupAudio builds each part of the audio graph at most once, with
        the program's analyser settings and a buffer of one byte per bin. */
    ghost predicate GraphValid()
      reads this`audioContext, this`analyser, this`dataArray, this`contextsCreated, this`graphsCreated
    {
      && contextsCreated == (if audioContext.Some? then 1 else 0)
      && graphsCreated == (if analyser.Some? then 1 else 0)
      && (analyser.Some? ==> audioContext.Some?)
      && (analyser.Some? <==> dataArray != null)
      && (analyser.Some? ==> analyser.value == Analyser(FftSize, SmoothingTimeConstant))
      && (dataArray != null ==> dataArray.Length == BinCount)
    }

    /** The only live object URL is the current one; every handle ever
        created is either live or revoked, never both; none is revoked
        twice. */
    ghost predicate HandlesValid()
      reads this`currentObjectUrl, this`nextHandle, this`live, this`revoked
    {
      && live == (if currentObjectUrl.Some? then {currentObjectUrl.value} else {})
      && (forall h :: h in live ==> h < nextHandle)
      && (forall h :: 0 <= h < nextHandle ==> (h in live) != (h in revoked))
      && (forall h :: h in revoked ==> h < nextHandle)
      && (forall i, j :: 0 <= i < j < |revoked| ==> revoked[i] != revoked[j])
    }

    ghost predicate Valid()
      reads this
    {
      GraphValid() && HandlesValid()
    }

    /** The state when the module is first evaluated; the label's initial
        text comes from the page. */
    constructor (initialStatus: string)
      ensures Valid()
      ensures audioContext == None && analyser == None && dataArray == null
      ensures !isPlaying && currentObjectUrl == None && currentFileName == ""
      ensures status == initialStatus && elementSource == None
      ensures nextHandle == 0 && live == {} && revoked == []
    {
      audioContext, analyser, dataArray := None, None, null;
      isPlaying, currentObjectUrl, currentFileName := false, None, "";
      status, elementSource, nextHandle := initialStatus, None, 0;
      live, revoked := {}, [];
      contextsCreated, graphsCreated := 0, 0;
    }

    /** setupAudio: create the context once (its initial state is up to the
        browser's autoplay policy), resume it when suspended, and build the
        analyser, the media element source and the bin buffer once. */
    method SetupAudio(startsSuspended: bool)
      requires Valid()
      modifies this`audioContext, this`analyser, this`dataArray, this`contextsCreated, this`graphsCreated
      ensures Valid()
      ensures audioContext == Some(Running)
      ensures analyser == Some(Analyser(FftSize, SmoothingTimeConstant))
      ensures old(audioContext).Some? ==> contextsCreated == old(contextsCreated)
      ensures old(analyser).Some? ==> dataArray == old(dataArray) && graphsCreated == old(graphsCreated)
      ensures old(analyser).None? ==> fresh(dataArray) && dataArray[..] == seq(BinCount, _ => 0 as byte)
    {
      if audioContext.None? {
        audioContext := if startsSuspended then Some(Suspended) else Some(Running);
        contextsCreated := contextsCreated + 1;
      }
      if audioContext.value.Suspended? {
        // audioContext.resume()
        audioContext := Some(Running);
      }
      if analyser.None? {
        analyser := Some(Analyser(FftSize, SmoothingTimeConstant));
        dataArray := new byte[BinCount](_ => 0);
        graphsCreated := graphsCreated + 1;
      }
    }

    /** The `change` handler of the file input. `file` is the first selected
        file, if any; `playResolves` is the outcome of the awaited
        audioElement.play(). */
    method OnFileSelected(file: Option<File>, startsSuspended: bool, playResolves: bool)
      requires Valid()
      modifies this
      ensures Valid()
      // no file: nothing happens
      ensures file.None? ==> State() == old(State())
      // not an audio file: only the status changes
      ensures file.Some? && !IsAudio(file.value) ==> State() == old(State()).(status := InvalidFileStatus)
      // an audio file: the audio graph is ready, the previous URL (if any)
      // is revoked, and a fresh one becomes the only live handle
      ensures file.Some? && IsAudio(file.value) ==> Loaded(old(State()), State(), file.value, playResolves)
      ensures file.Some? && IsAudio(file.value) && old(analyser).Some? ==> dataArray == old(dataArray)
    {
      if file.None? {
        return;
      }
      var f := file.value;
      if !Includes(f.mediaType, "audio") {
        status := InvalidFileStatus;
        return;
      }
      Load(f, startsSuspended, playResolves);
    }

    /** The rest of the `change` handler once the file is known to be audio. */
    method Load(f: File, startsSuspended: bool, playResolves: bool)
      requires Valid()
      modifies this
      ensures Valid()
      ensures old(analyser).Some? ==> dataArray == old(dataArray)
      ensures Loaded(old(State()), State(), f, playResolves)
    {
      assert nextHandle !in live && nextHandle !in revoked;
      SetupAudio(startsSuspended);
      ReleaseUrl();
      var url := CreateUrl();
      currentFileName := f.name;
      elementSource := Some(url);
      if playResolves {
        isPlaying := true;
        status := PlayingStatus(f.name);
      }
    }

    /** `if (currentObjectUrl) { URL.revokeObjectURL(currentObjectUrl);
        currentObjectUrl = null; }`, shared by the `change` and `ended`
        handlers. */
    method ReleaseUrl()
      requires Valid()
      modifies this`currentObjectUrl, this`live, this`revoked
      ensures Valid()
      ensures revoked == RevokedAfterRelease(old(revoked), old(currentObjectUrl))
      ensures currentObjectUrl == None && live == {}
    {
      if currentObjectUrl.Some? {
        live := live - {currentObjectUrl.value};
        revoked := revoked + [currentObjectUrl.value];
        currentObjectUrl := None;
      }
    }

    /** URL.createObjectURL: a handle never seen before, now live and held
        as the current URL. */
    method CreateUrl() returns (url: Handle)
      requires Valid() && currentObjectUrl.None?
      modifies this`nextHandle, this`live, this`currentObjectUrl
      ensures Valid()
      ensures url == old(nextHandle) && url !in old(live) && url !in revoked
      ensures currentObjectUrl == Some(url) && live == {url} && nextHandle == url + 1
    {
      url := nextHandle;
      nextHandle := nextHandle + 1;
      live := live + {url};
      currentObjectUrl := Some(url);
    }

    /** The audio element's `play` handler. */
    method OnPlay(startsSuspended: bool)
      requires Valid()
      modifies this
      ensures Valid()
      ensures audioContext == Some(Running)
      ensures analyser == Some(Analyser(FftSize, SmoothingTimeConstant))
      ensures old(analyser).Some? ==> dataArray == old(dataArray)
      ensures isPlaying
      ensures status == if old(currentFileName) != "" then PlayingStatus(old(currentFileName)) else old(status)
      ensures State() == old(State()).(audioContext := audioContext, analyser := analyser,
                                       dataArray := dataArray, isPlaying := true, status := status)
    {
      SetupAudio(startsSuspended);
      isPlaying := true;
      if currentFileName != "" {
        status := PlayingStatus(currentFileName);
      }
    }

    /** The audio element's `pause` handler. */
    method OnPause()
      requires Valid()
      modifies this`isPlaying, this`status
      ensures Valid()
      ensures State() == old(State()).(isPlaying := false, status := PausedStatus)
    {
      isPlaying := false;
      status := PausedStatus;
    }

    /** The audio element's `ended` handler: the current URL, if any, is
        revoked and forgotten together with the file name. */
    method OnEnded()
      requires Valid()
      modifies this`isPlaying, this`status, this`currentObjectUrl, this`currentFileName,
               this`live, this`revoked
      ensures Valid()
      ensures !isPlaying && status == EndedStatus && currentFileName == ""
      ensures revoked == RevokedAfterRelease(old(revoked), old(currentObjectUrl))
      ensures currentObjectUrl == None && live == {}
    {
      isPlaying := false;
      status := EndedStatus;
      ReleaseUrl();
      currentFileName := "";
    }
  }

  /** In every reachable state at most one object URL is live, it is the
      current one, and every other handle ever created has been revoked. */
  lemma AtMostOneLive(s: AudioSession)
    requires s.Valid()
    ensures |s.live| <= 1
    ensures forall h :: h in s.live ==> s.currentObjectUrl == Some(h)
    ensures forall h :: 0 <= h < s.nextHandle && s.currentObjectUrl != Some(h) ==> h in s.revoked
  {
  }

  /** No handle is ever revoked twice: a revocation only ever takes a handle
      that is live, and live handles have never been revoked. */
  lemma RevokedOnce(s: AudioSession)
    requires s.Valid()
    ensures forall i, j :: 0 <= i < j < |s.revoked| ==> s.revoked[i] != s.revoked[j]
    ensures s.currentObjectUrl.Some? ==> s.currentObjectUrl.value !in s.revoked
  {
  }

  /** The media types the scenario below uses. */
  lemma ScenarioTypes()
    ensures !IsAudio(File("notes.txt", "text/plain"))
    ensures IsAudio(File("song.mp3", "audio/mpeg"))
  {
    var t := "text/plain";
    assert forall j :: 0 <= j < 6 ==> t[j] != 'a';
    forall i ensures !OccursAt(t, "audio", i) {
      if 0 <= i <= 5 {
        assert t[i..i + 5][0] == t[i] != 'a';
      }
    }
    assert OccursAt("audio/mpeg", "audio", 0);
  }

  /** A session driven through its handlers: a file that is not audio (such
      as "text/plain", by ScenarioTypes) is refused; an audio file is
      loaded, paused and played to the end, which revokes its URL exactly
      once; loading again revokes nothing more. */
  method SongScenario(text: File, song: File)
    requires !IsAudio(text) && IsAudio(song)
  {
    var s := new AudioSession("");
    s.OnFileSelected(Some(text), true, true);
    assert s.status == InvalidFileStatus && s.currentObjectUrl == None && s.live == {};

    s.OnFileSelected(Some(song), true, true);
    assert s.status == PlayingStatus(song.name) && s.isPlaying;
    assert s.currentObjectUrl.Some? && s.currentObjectUrl.value == 0 && s.live == {0};

    s.OnPause();
    assert s.status == PausedStatus && !s.isPlaying && s.live == {0};

    s.OnEnded();
    assert s.revoked == [] + [0] == [0];
    assert s.status == EndedStatus && s.live == {} && s.currentFileName == "";

    s.OnPlay(false);
    assert s.isPlaying && s.status == EndedStatus;

    s.OnFileSelected(Some(song), true, false);
    assert s.revoked == [0] && s.live == {1} && s.currentObjectUrl.value == 1;
    assert s.isPlaying && s.status == EndedStatus;
  }
}
