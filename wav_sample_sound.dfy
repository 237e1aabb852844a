/**
 * WavSampleSound: a sound loaded from a WAV file and played through one
 * XAudio2 source voice. Its playback state is the pair of flags
 * creationComplete / isRunning together with the voice and the submit buffer;
 * the vendor's answers (submit results, queued-buffer counts, file reads) are
 * parameters of the operations.
 */
module WavSampleSound {
  import opened Platform
  import opened SampleSound

  // ---------------------------------------------------------------------------
  // The playback state machine
  // ---------------------------------------------------------------------------

  /** The part of a sound that initPCM, start, stop, run and destroy act on. */
  datatype Playback = Playback(creationComplete: bool, isRunning: bool, voice: VoicePtr, buffer: XAudio2Buffer)

  /** A created sound always has a live source voice. */
  predicate Consistent(p: Playback)
  {
    p.creationComplete ==> p.voice.Live?
  }

  /** The state one operation leaves and the voice calls it makes, in order. */
  datatype Step = Step(next: Playback, issued: seq<VoiceCall>)

  /** The successful end of initPCM: a fresh voice, the wave submitted as one end-of-stream buffer. */
  function InitPcmStep(p: Playback, voiceId: nat, audioBytes: uint32, loopCount: uint32): (q: Playback)
    ensures Consistent(q)
    ensures q.creationComplete && !q.isRunning && q.voice == Live(voiceId)
    ensures q.buffer.flags == XAUDIO2_END_OF_STREAM && q.buffer.hasAudioData
    ensures q.buffer.audioBytes == audioBytes && q.buffer.loopCount == loopCount
    ensures q.buffer.playBegin == p.buffer.playBegin && q.buffer.playLength == p.buffer.playLength
    ensures q.buffer.loopBegin == p.buffer.loopBegin && q.buffer.loopLength == p.buffer.loopLength
  {
    Playback(true, false, Live(voiceId),
             p.buffer.(hasAudioData := true, flags := XAUDIO2_END_OF_STREAM, audioBytes := audioBytes, loopCount := loopCount))
  }

  function StartStep(p: Playback, submitResult: HResult): (s: Step)
    requires Consistent(p)
    ensures Consistent(s.next)
    ensures !p.creationComplete || p.isRunning ==> s == Step(p, [])
    ensures p.creationComplete && !p.isRunning && Failed(submitResult) ==>
      s.next == Playback(false, false, Invalid, p.buffer)
      && s.issued == [SubmitSourceBuffer(p.voice.id, p.buffer), DestroyVoice(p.voice.id)]
    ensures p.creationComplete && !p.isRunning && !Failed(submitResult) ==>
      s.next == p.(isRunning := true)
      && s.issued == [SubmitSourceBuffer(p.voice.id, p.buffer), StartVoice(p.voice.id)]
  {
    if !p.creationComplete || p.isRunning then Step(p, [])
    else if Failed(submitResult) then
      Step(Playback(false, false, Invalid, p.buffer), [SubmitSourceBuffer(p.voice.id, p.buffer), DestroyVoice(p.voice.id)])
    else
      Step(p.(isRunning := true), [SubmitSourceBuffer(p.voice.id, p.buffer), StartVoice(p.voice.id)])
  }

  /** What start returns: S_FAILED before creation, the submit error, or the voice's Start result. */
  function StartResult(p: Playback, submitResult: HResult, startResult: HResult): (hr: HResult)
  {
    if !p.creationComplete then S_FAILED
    else if p.isRunning then S_OK
    else if Failed(submitResult) then submitResult
    else startResult
  }

  function StopStep(p: Playback): (s: Step)
    requires Consistent(p)
    ensures Consistent(s.next)
    ensures p.creationComplete && p.isRunning ==> s == Step(p.(isRunning := false), [StopVoice(p.voice.id)])
    ensures !(p.creationComplete && p.isRunning) ==> s == Step(p, [])
  {
    if p.creationComplete && p.isRunning then Step(p.(isRunning := false), [StopVoice(p.voice.id)])
    else Step(p, [])
  }

  /** run polls the voice; the sound keeps running only while buffers are still queued. */
  function RunStep(p: Playback, buffersQueued: nat): (s: Step)
    requires Consistent(p)
    ensures Consistent(s.next)
    ensures p.creationComplete && p.isRunning ==>
      s == Step(p.(isRunning := buffersQueued > 0), [GetState(p.voice.id)])
    ensures !(p.creationComplete && p.isRunning) ==> s == Step(p, [])
  {
    if p.isRunning && p.creationComplete then Step(p.(isRunning := buffersQueued > 0), [GetState(p.voice.id)])
    else Step(p, [])
  }

  /** destroy releases the voice only if the sound was created, and always clears creationComplete. */
  function DestroyStep(p: Playback): (s: Step)
    requires Consistent(p)
    ensures Consistent(s.next)
    ensures !s.next.creationComplete && s.next.isRunning == p.isRunning && s.next.buffer == p.buffer
    ensures p.creationComplete ==> s.issued == [DestroyVoice(p.voice.id)] && s.next.voice == Invalid
    ensures !p.creationComplete ==> s == Step(p, [])
  {
    if p.creationComplete then Step(p.(creationComplete := false, voice := Invalid), [DestroyVoice(p.voice.id)])
    else Step(p, [])
  }

  /** One call on a sound, with the vendor's answers it receives. */
  datatype SoundOp =
    | InitPcm(succeeds: bool, voiceId: nat, audioBytes: uint32, loopCount: uint32)
    | Start(submitResult: HResult)
    | Stop
    | Run(buffersQueued: nat)
    | Destroy

  function Perform(p: Playback, op: SoundOp): (s: Step)
    requires Consistent(p)
    ensures Consistent(s.next)
  {
    match op
    case InitPcm(ok, v, bytes, loops) => if ok then Step(InitPcmStep(p, v, bytes, loops), []) else Step(p, [])
    case Start(submit) => StartStep(p, submit)
    case Stop => StopStep(p)
    case Run(q) => RunStep(p, q)
    case Destroy => DestroyStep(p)
  }

  /** The state after a sequence of calls. */
  function Apply(p: Playback, ops: seq<SoundOp>): (q: Playback)
    requires Consistent(p)
    ensures Consistent(q)
    decreases |ops|
  {
    if ops == [] then p else Apply(Perform(p, ops[0]).next, ops[1..])
  }

  /** Every voice call a sequence of calls makes, in order. */
  function Issued(p: Playback, ops: seq<SoundOp>): seq<VoiceCall>
    requires Consistent(p)
    decreases |ops|
  {
    if ops == [] then [] else Perform(p, ops[0]).issued + Issued(Perform(p, ops[0]).next, ops[1..])
  }

  predicate IsSuccessfulStart(op: SoundOp)
  {
    op.Start? && !Failed(op.submitResult)
  }

  predicate IsSuccessfulInit(op: SoundOp)
  {
    op.InitPcm? && op.succeeds
  }

  /** A sound that is not playing only starts playing through a start whose submit succeeds. */
  lemma {:induction false} NoPlayingWithoutStart(p: Playback, ops: seq<SoundOp>)
    requires Consistent(p) && !p.isRunning
    requires Apply(p, ops).isRunning
    ensures exists i :: 0 <= i < |ops| && IsSuccessfulStart(ops[i])
    decreases |ops|
  {
    if ops == [] {
    } else {
      var q := Perform(p, ops[0]).next;
      if IsSuccessfulStart(ops[0]) {
      } else {
        assert !q.isRunning;
        NoPlayingWithoutStart(q, ops[1..]);
        var i :| 0 <= i < |ops[1..]| && IsSuccessfulStart(ops[1..][i]);
        assert IsSuccessfulStart(ops[i + 1]);
      }
    }
  }

  /**
   * A sound that is not created is inert until a successful initPCM: start
   * fails, stop, run and destroy do nothing and no voice call is made. In
   * particular a sound destroyed while playing keeps reporting isRunning.
   */
  lemma {:induction false} UncreatedIsInert(p: Playback, ops: seq<SoundOp>)
    requires Consistent(p) && !p.creationComplete
    requires forall i :: 0 <= i < |ops| ==> !IsSuccessfulInit(ops[i])
    ensures Apply(p, ops) == p
    ensures Issued(p, ops) == []
    decreases |ops|
  {
    if ops != [] {
      assert !IsSuccessfulInit(ops[0]);
      assert Perform(p, ops[0]) == Step(p, []);
      forall i | 0 <= i < |ops[1..]| ensures !IsSuccessfulInit(ops[1..][i]) {
        assert ops[1..][i] == ops[i + 1];
      }
      UncreatedIsInert(p, ops[1..]);
    }
  }

  /** destroy is idempotent: a second destroy changes nothing and releases nothing. */
  lemma DestroyTwiceReleasesOnce(p: Playback)
    requires Consistent(p)
    ensures Apply(p, [Destroy, Destroy]) == DestroyStep(p).next
    ensures Issued(p, [Destroy, Destroy]) == (if p.creationComplete then [DestroyVoice(p.voice.id)] else [])
  {
    var q := DestroyStep(p).next;
    assert [Destroy, Destroy][1..] == [Destroy];
    assert Apply(q, [Destroy]) == q;
    assert Issued(q, [Destroy]) == [];
  }

  /** start then stop on a created, idle sound returns it to its state; the voice sees submit, start, stop. */
  lemma StartThenStop(p: Playback, submitResult: HResult)
    requires Consistent(p) && p.creationComplete && !p.isRunning && !Failed(submitResult)
    ensures Apply(p, [Start(submitResult), Stop]) == p
    ensures Issued(p, [Start(submitResult), Stop]) ==
      [SubmitSourceBuffer(p.voice.id, p.buffer), StartVoice(p.voice.id), StopVoice(p.voice.id)]
  {
    var q := StartStep(p, submitResult).next;
    assert [Start(submitResult), Stop][1..] == [Stop];
    assert Apply(q, [Stop]) == p;
    assert Issued(q, [Stop]) == [StopVoice(p.voice.id)];
  }

  // ---------------------------------------------------------------------------
  // Locating the media file
  // ---------------------------------------------------------------------------

  /** wcsrchr: the position of the last occurrence of c in s. */
  function LastIndexOf(s: string, c: char): (r: Option<nat>)
    ensures r.None? <==> (forall i :: 0 <= i < |s| ==> s[i] != c)
    ensures r.Some? ==> r.value < |s| && s[r.value] == c
    ensures r.Some? ==> forall i :: r.value < i < |s| ==> s[i] != c
    decreases |s|
  {
    if |s| == 0 then None
    else if s[|s| - 1] == c then Some(|s| - 1)
    else LastIndexOf(s[..|s| - 1], c)
  }

  /** The module path as the code holds it: at most MAX_PATH - 1 characters, the rest cut off by the terminator it writes. */
  function HeldModulePath(moduleFileName: string): (r: string)
    ensures |r| < MAX_PATH
    ensures |r| <= |moduleFileName| && r == moduleFileName[..|r|]
    ensures |moduleFileName| < MAX_PATH ==> r == moduleFileName
  {
    if |moduleFileName| < MAX_PATH then moduleFileName else moduleFileName[..MAX_PATH - 1]
  }

  /**
   * The executable's name: the text after the last backslash of its path with
   * everything from the last dot removed; empty when the path has no backslash
   * (the name buffer keeps its zero initialisation).
   */
  function ExeName(exePath: string): (r: string)
    ensures LastIndexOf(exePath, '\\').None? ==> r == []
    ensures LastIndexOf(exePath, '\\').Some? ==>
      var tail := exePath[LastIndexOf(exePath, '\\').value + 1..];
      && |r| <= |tail| && r == tail[..|r|]
      && (forall i :: 0 <= i < |r| ==> r[i] != '\\')
      && (LastIndexOf(tail, '.').None? ==> r == tail)
      && (LastIndexOf(tail, '.').Some? ==>
            |r| < |tail| && tail[|r|] == '.' && forall i :: |r| < i < |tail| ==> tail[i] != '.')
  {
    match LastIndexOf(exePath, '\\')
    case None => []
    case Some(slash) =>
      var tail := exePath[slash + 1..];
      match LastIndexOf(tail, '.')
      case None => tail
      case Some(dot) => tail[..dot]
  }

  /** What the OS tells the search: the module's path, the directory walk, and which files exist. */
  datatype MediaEnvironment = MediaEnvironment(
    moduleFileName: string,
    /**
     * The full paths GetFullPathName yields, starting at "." and going up one
     * ".." at a time, for as long as they have a non-empty last component; None
     * when the first call reports no last component at all.
     */
    parentWalk: Option<seq<string>>,
    fileExists: string -> bool)

  /** How FindMediaFileCch ends: a status and what it wrote to the destination (None: not written), or the CRT's abort on a buffer too small. */
  datatype FindOutcome = Returned(hr: HResult, dest: Option<string>) | Aborted

  datatype SearchResult = Found(path: string) | NotFound | SearchAborted

  /** The two paths tried in directory d: d\leaf, then d\exeName\leaf. */
  function PlainCandidate(d: string, leaf: string): string { d + "\\" + leaf }
  function ExeCandidate(d: string, exeName: string, leaf: string): string { d + "\\" + exeName + "\\" + leaf }

  /** Every path the walk may try, in the order it tries them. */
  function Candidates(dirs: seq<string>, exeName: string, leaf: string): (c: seq<string>)
    ensures |c| == 2 * |dirs|
    decreases |dirs|
  {
    if dirs == [] then []
    else [PlainCandidate(dirs[0], leaf), ExeCandidate(dirs[0], exeName, leaf)] + Candidates(dirs[1..], exeName, leaf)
  }

  /** The parent-directory walk; swprintf_s and wcscpy_s abort on a result that does not fit its buffer. */
  function SearchParents(dirs: seq<string>, exeName: string, leaf: string, cchDest: int, fileExists: string -> bool): SearchResult
    decreases |dirs|
  {
    if dirs == [] then NotFound
    else
      var plain := PlainCandidate(dirs[0], leaf);
      var underExe := ExeCandidate(dirs[0], exeName, leaf);
      if |plain| >= MAX_PATH then SearchAborted
      else if fileExists(plain) then (if |plain| >= cchDest then SearchAborted else Found(plain))
      else if |underExe| >= MAX_PATH then SearchAborted
      else if fileExists(underExe) then (if |underExe| >= cchDest then SearchAborted else Found(underExe))
      else if |dirs[0] + "\\.."| >= MAX_PATH then SearchAborted
      else SearchParents(dirs[1..], exeName, leaf, cchDest, fileExists)
  }

  predicate InvalidFindArguments(filename: Option<string>, destIsNull: bool, cchDest: int32)
  {
    filename.None? || |filename.value| == 0 || destIsNull || cchDest < 10
  }

  /** FindMediaFileCch as a function of its arguments and of the environment. */
  function FindMedia(filename: Option<string>, destIsNull: bool, cchDest: int32, env: MediaEnvironment): FindOutcome
  {
    if InvalidFindArguments(filename, destIsNull, cchDest) then Returned(E_INVALIDARG, None)
    else
      var f := filename.value;
      var exeName := ExeName(HeldModulePath(env.moduleFileName));
      if |f| >= cchDest as int then Aborted
      else if env.fileExists(f) then Returned(S_OK, Some(f))
      else if |f| >= MAX_PATH then Aborted
      else match env.parentWalk
        case None => Returned(E_FAIL, Some(f))
        case Some(dirs) =>
          match SearchParents(dirs, exeName, f, cchDest as int, env.fileExists)
          case Found(path) => Returned(S_OK, Some(path))
          case NotFound => Returned(E_FILE_NOT_FOUND, Some(f))
          case SearchAborted => Aborted
  }

  /** c[j] is the first path of c that exists. */
  predicate FirstExistingAt(c: seq<string>, j: nat, fileExists: string -> bool)
  {
    j < |c| && fileExists(c[j]) && forall i :: 0 <= i < j ==> !fileExists(c[i])
  }

  /** A path the walk returns exists, fits the destination, and is the first candidate that exists. */
  lemma {:induction false} SearchFindsFirstExisting(dirs: seq<string>, exeName: string, leaf: string, cchDest: int, fileExists: string -> bool)
    requires SearchParents(dirs, exeName, leaf, cchDest, fileExists).Found?
    ensures var path := SearchParents(dirs, exeName, leaf, cchDest, fileExists).path;
      fileExists(path) && |path| < cchDest && |path| < MAX_PATH
    ensures exists j: nat ::
              && FirstExistingAt(Candidates(dirs, exeName, leaf), j, fileExists)
              && Candidates(dirs, exeName, leaf)[j] == SearchParents(dirs, exeName, leaf, cchDest, fileExists).path
    decreases |dirs|
  {
    var path := SearchParents(dirs, exeName, leaf, cchDest, fileExists).path;
    var c := Candidates(dirs, exeName, leaf);
    var plain := PlainCandidate(dirs[0], leaf);
    var underExe := ExeCandidate(dirs[0], exeName, leaf);
    assert c[0] == plain && c[1] == underExe;
    if fileExists(plain) {
      assert path == plain;
      assert FirstExistingAt(c, 0, fileExists) && c[0] == path;
    } else if fileExists(underExe) {
      assert path == underExe;
      assert FirstExistingAt(c, 1, fileExists) && c[1] == path;
    } else {
      var rest := Candidates(dirs[1..], exeName, leaf);
      assert c == [plain, underExe] + rest;
      SearchFindsFirstExisting(dirs[1..], exeName, leaf, cchDest, fileExists);
      assert path == SearchParents(dirs[1..], exeName, leaf, cchDest, fileExists).path;
      var j: nat :| FirstExistingAt(rest, j, fileExists) && rest[j] == path;
      assert c[j + 2] == path;
      forall i | 0 <= i < j + 2 ensures !fileExists(c[i]) {
        if i >= 2 { assert c[i] == rest[i - 2]; }
      }
      assert FirstExistingAt(c, j + 2, fileExists);
    }
  }

  /** When the walk ends without a match, no candidate path exists. */
  lemma {:induction false} SearchNotFoundMeansNoCandidate(dirs: seq<string>, exeName: string, leaf: string, cchDest: int, fileExists: string -> bool)
    requires SearchParents(dirs, exeName, leaf, cchDest, fileExists).NotFound?
    ensures forall c :: c in Candidates(dirs, exeName, leaf) ==> !fileExists(c)
    decreases |dirs|
  {
    if dirs != [] {
      SearchNotFoundMeansNoCandidate(dirs[1..], exeName, leaf, cchDest, fileExists);
      var rest := Candidates(dirs[1..], exeName, leaf);
      assert Candidates(dirs, exeName, leaf) == [PlainCandidate(dirs[0], leaf), ExeCandidate(dirs[0], exeName, leaf)] + rest;
    }
  }

  /** E_INVALIDARG is returned exactly for the rejected arguments, and the destination is then untouched. */
  lemma FindInvalidArgumentIff(filename: Option<string>, destIsNull: bool, cchDest: int32, env: MediaEnvironment)
    ensures (FindMedia(filename, destIsNull, cchDest, env).Returned? && FindMedia(filename, destIsNull, cchDest, env).hr == E_INVALIDARG)
        <==> InvalidFindArguments(filename, destIsNull, cchDest)
    ensures InvalidFindArguments(filename, destIsNull, cchDest) ==> FindMedia(filename, destIsNull, cchDest, env).dest.None?
  {
    FileNotFoundCode();
  }

  /** S_OK means the destination names a file that exists. */
  lemma FindOkMeansFileExists(filename: Option<string>, destIsNull: bool, cchDest: int32, env: MediaEnvironment)
    requires FindMedia(filename, destIsNull, cchDest, env).Returned?
    requires FindMedia(filename, destIsNull, cchDest, env).hr == S_OK
    ensures FindMedia(filename, destIsNull, cchDest, env).dest.Some?
    ensures env.fileExists(FindMedia(filename, destIsNull, cchDest, env).dest.value)
    ensures |FindMedia(filename, destIsNull, cchDest, env).dest.value| < cchDest as int
  {
    FileNotFoundCode();
    var f := filename.value;
    if !env.fileExists(f) {
      var dirs := env.parentWalk.value;
      SearchFindsFirstExisting(dirs, ExeName(HeldModulePath(env.moduleFileName)), f, cchDest as int, env.fileExists);
    }
  }

  /** Nothing found: the destination holds the original name, which does not exist, and neither does any candidate. */
  lemma FindNotFoundFallsBack(filename: Option<string>, destIsNull: bool, cchDest: int32, env: MediaEnvironment)
    requires FindMedia(filename, destIsNull, cchDest, env).Returned?
    requires FindMedia(filename, destIsNull, cchDest, env).hr == E_FILE_NOT_FOUND
    ensures filename.Some? && FindMedia(filename, destIsNull, cchDest, env).dest == filename
    ensures !env.fileExists(filename.value) && env.parentWalk.Some?
    ensures forall c :: c in Candidates(env.parentWalk.value, ExeName(HeldModulePath(env.moduleFileName)), filename.value) ==> !env.fileExists(c)
  {
    FileNotFoundCode();
    SearchNotFoundMeansNoCandidate(env.parentWalk.value, ExeName(HeldModulePath(env.moduleFileName)), filename.value, cchDest as int, env.fileExists);
  }

  // ---------------------------------------------------------------------------
  // The sound object
  // ---------------------------------------------------------------------------

  /** What the WAV reader and the engine answer while initPCM runs. */
  datatype WaveLoad = WaveLoad(
    openResult: HResult,
    waveSize: uint32,       // CWaveFile::GetSize
    readResult: HResult,
    bytesRead: uint32,      // the size CWaveFile::Read reports back
    createResult: HResult,  // IXAudio2::CreateSourceVoice
    voiceId: nat)           // the voice it creates

  /** What initPCM returns: the first failure along the way, else CreateSourceVoice's status. */
  function InitPcmResult(szFilename: string, env: MediaEnvironment, load: WaveLoad): HResult
    requires FindMedia(Some(szFilename), false, MAX_PATH as int32, env).Returned?
  {
    var found := FindMedia(Some(szFilename), false, MAX_PATH as int32, env);
    if Failed(found.hr) then found.hr
    else if Failed(load.openResult) then load.openResult
    else if Failed(load.readResult) then load.readResult
    else load.createResult
  }

  /** initPCM gets as far as asking the engine for a source voice. */
  predicate ReachesVoiceCreation(szFilename: string, env: MediaEnvironment, load: WaveLoad)
  {
    var found := FindMedia(Some(szFilename), false, MAX_PATH as int32, env);
    found.Returned? && !Failed(found.hr) && !Failed(load.openResult) && !Failed(load.readResult)
  }

  class WavSampleSound {
    /** The SampleSound part of this object. */
    const base: SampleSound
    var creationComplete: bool
    var isRunning: bool
    var sourceVoice: VoicePtr
    var buffer: XAudio2Buffer
    var cbWaveSize: uint32
    /** The calls this sound has made on its source voice. */
    var calls: seq<VoiceCall>

    function State(): Playback
      reads this
    {
      Playback(creationComplete, isRunning, sourceVoice, buffer)
    }

    ghost predicate Valid()
      reads this
    {
      Consistent(State())
    }

    /** Not created, not running, every buffer field 0 or NULL; the voice pointer is left uninitialised. */
    constructor ()
      ensures Valid() && base.Valid() && fresh(base) && fresh(base.reverbCurvePoints)
      ensures State() == Playback(false, false, Invalid, EmptyBuffer)
      ensures calls == []
      ensures base.name == [] && base.filename == []
      ensures SampleSound.InitialEmitter(base.emitter)
    {
      base := new SampleSound();
      creationComplete := false;
      isRunning := false;
      sourceVoice := Invalid;
      buffer := EmptyBuffer;
      cbWaveSize := 0;
      calls := [];
    }

    /** ~WavSampleSound */
    method Destruct()
      requires Valid()
      modifies this
      ensures Valid()
      ensures State() == DestroyStep(old(State())).next
      ensures calls == old(calls) + DestroyStep(old(State())).issued
      ensures cbWaveSize == old(cbWaveSize)
    {
      Destroy();
    }

    method FindMediaFileCch(strFilename: Option<string>, destIsNull: bool, cchDest: int32, env: MediaEnvironment)
      returns (outcome: FindOutcome)
      ensures outcome == FindMedia(strFilename, destIsNull, cchDest, env)
    {
      if InvalidFindArguments(strFilename, destIsNull, cchDest) {
        return Returned(E_INVALIDARG, None);
      }
      var filename := strFilename.value;

      // Split the module path into the directory and the exe name, chopping the extension.
      var exePath := HeldModulePath(env.moduleFileName);
      var exeName: string := [];
      var lastSlash := LastIndexOf(exePath, '\\');
      if lastSlash.Some? {
        exeName := exePath[lastSlash.value + 1..];
        exePath := exePath[..lastSlash.value];
        var lastDot := LastIndexOf(exeName, '.');
        if lastDot.Some? {
          exeName := exeName[..lastDot.value];
        }
      }
      assert exeName == ExeName(HeldModulePath(env.moduleFileName));

      if |filename| >= cchDest as int {
        return Aborted;
      }
      var dest := filename;
      if env.fileExists(dest) {
        return Returned(S_OK, Some(dest));
      }

      if |filename| >= MAX_PATH {
        return Aborted;
      }
      var leafName := filename;
      if env.parentWalk.None? {
        return Returned(E_FAIL, Some(dest));
      }
      var walk := WalkParents(env.parentWalk.value, exeName, leafName, cchDest as int, env.fileExists);
      match walk
      case SearchAborted => return Aborted;
      case Found(path) => return Returned(S_OK, Some(path));
      case NotFound =>
        dest := filename;
        return Returned(E_FILE_NOT_FOUND, Some(dest));
    }

    /**
     * The search loop of FindMediaFileCch: in each directory of the walk try
     * d\leaf and then d\exeName\leaf, then move to the parent.
     */
    method WalkParents(dirs: seq<string>, exeName: string, leafName: string, cchDest: int, fileExists: string -> bool)
      returns (r: SearchResult)
      ensures r == SearchParents(dirs, exeName, leafName, cchDest, fileExists)
    {
      var k := 0;
      while k < |dirs|
        invariant 0 <= k <= |dirs|
        invariant SearchParents(dirs, exeName, leafName, cchDest, fileExists)
          == SearchParents(dirs[k..], exeName, leafName, cchDest, fileExists)
        decreases |dirs| - k
      {
        var fullFileName := PlainCandidate(dirs[k], leafName);
        if |fullFileName| >= MAX_PATH {
          return SearchAborted;
        }
        if fileExists(fullFileName) {
          if |fullFileName| >= cchDest {
            return SearchAborted;
          }
          return Found(fullFileName);
        }
        fullFileName := ExeCandidate(dirs[k], exeName, leafName);
        if |fullFileName| >= MAX_PATH {
          return SearchAborted;
        }
        if fileExists(fullFileName) {
          if |fullFileName| >= cchDest {
            return SearchAborted;
          }
          return Found(fullFileName);
        }
        var search := dirs[k] + "\\..";
        if |search| >= MAX_PATH {
          return SearchAborted;
        }
        assert dirs[k..][1..] == dirs[k + 1..];
        k := k + 1;
      }
      return NotFound;
    }

    /**
     * Records the file name, locates and reads the wave, creates the voice and
     * prepares the buffer. Each failure returns at once and leaves the playback
     * state as it was; the file name is set in every case.
     */
    method InitPCM(engineLive: bool, szFilename: string, loopCount: uint32, env: MediaEnvironment, load: WaveLoad)
      returns (hr: HResult)
      requires Valid() && base.Valid()
      requires !FindMedia(Some(szFilename), false, MAX_PATH as int32, env).Aborted?
      requires engineLive || !ReachesVoiceCreation(szFilename, env, load)
      modifies this, base`filename, base`cFilename
      ensures Valid() && base.Valid()
      ensures base.filename == szFilename && base.cFilename == Narrow(szFilename)
      ensures hr == InitPcmResult(szFilename, env, load)
      ensures !Failed(hr) ==> State() == InitPcmStep(old(State()), load.voiceId, load.bytesRead, loopCount)
      ensures Failed(hr) ==> State() == old(State())
      ensures calls == old(calls)
      ensures !Failed(hr) ==> cbWaveSize == load.bytesRead
      ensures base.emitter == old(base.emitter) && base.name == old(base.name)
    {
      base.SetFileName(szFilename);
      var found := FindMediaFileCch(Some(szFilename), false, MAX_PATH as int32, env);
      hr := found.hr;
      if Failed(hr) {
        return;
      }
      var strFilePath := found.dest.value;

      hr := load.openResult;
      if Failed(hr) {
        return;
      }

      cbWaveSize := load.waveSize;
      hr := load.readResult;
      cbWaveSize := load.bytesRead;
      if Failed(hr) {
        return;
      }

      hr := load.createResult;
      if Failed(hr) {
        return;
      }
      sourceVoice := Live(load.voiceId);

      buffer := buffer.(hasAudioData := true);
      buffer := buffer.(flags := XAUDIO2_END_OF_STREAM);
      buffer := buffer.(audioBytes := cbWaveSize);
      buffer := buffer.(loopCount := loopCount);

      creationComplete := true;
      isRunning := false;
    }

    /** Submits the buffer and starts the voice, unless not created or already playing. */
    method Start(submitResult: HResult, startResult: HResult) returns (hr: HResult)
      requires Valid()
      modifies this
      ensures Valid()
      ensures State() == StartStep(old(State()), submitResult).next
      ensures calls == old(calls) + StartStep(old(State()), submitResult).issued
      ensures hr == StartResult(old(State()), submitResult, startResult)
      ensures old(!creationComplete) ==> hr == S_FAILED && State() == old(State()) && calls == old(calls)
      ensures cbWaveSize == old(cbWaveSize)
    {
      if !creationComplete {
        return S_FAILED;
      }
      hr := S_OK;
      if !isRunning {
        calls := calls + [SubmitSourceBuffer(sourceVoice.id, buffer)];
        hr := submitResult;
        if Failed(hr) {
          calls := calls + [DestroyVoice(sourceVoice.id)];
          sourceVoice := Invalid;
          creationComplete := false;
          return;
        }
        calls := calls + [StartVoice(sourceVoice.id)];
        hr := startResult;
        isRunning := true;
      }
    }

    method Stop()
      requires Valid()
      modifies this
      ensures Valid()
      ensures State() == StopStep(old(State())).next
      ensures calls == old(calls) + StopStep(old(State())).issued
      ensures cbWaveSize == old(cbWaveSize)
    {
      if creationComplete && isRunning {
        calls := calls + [StopVoice(sourceVoice.id)];
        isRunning := false;
      }
    }

    method Run(buffersQueued: nat) returns (hr: HResult)
      requires Valid()
      modifies this
      ensures Valid()
      ensures hr == S_OK
      ensures State() == RunStep(old(State()), buffersQueued).next
      ensures calls == old(calls) + RunStep(old(State()), buffersQueued).issued
      ensures cbWaveSize == old(cbWaveSize)
    {
      if isRunning && creationComplete {
        calls := calls + [GetState(sourceVoice.id)];
        isRunning := buffersQueued > 0;
      }
      return S_OK;
    }

    method Destroy()
      requires Valid()
      modifies this
      ensures Valid()
      ensures State() == DestroyStep(old(State())).next
      ensures calls == old(calls) + DestroyStep(old(State())).issued
      ensures cbWaveSize == old(cbWaveSize)
    {
      if creationComplete {
        calls := calls + [DestroyVoice(sourceVoice.id)];
        sourceVoice := Invalid;
      }
      creationComplete := false;
    }

    /** getSourceVoice */
    function GetSourceVoice(): VoicePtr
      reads this
    {
      sourceVoice
    }

    /** getEmitter: the emitter of the SampleSound part. */
    function GetEmitter(): Emitter
      reads this, base
    {
      base.emitter
    }
  }
}
