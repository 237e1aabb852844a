# DxAudioInterfaceLibrary core, modelled in Dafny

DxAudioInterfaceLibrary wraps Microsoft XAudio2 and X3DAudio. A `BasicAudio` object owns the engine, the mastering voice, the
X3DAudio listener and DSP settings (with one matrix coefficient per output
channel), and a registry of the sounds it created. Each `WavSampleSound` plays
one WAV file through one source voice and carries a `SampleSound` part: the
sound's name, file name and 3D emitter.

This project models that core in three modules, one per class, plus a shared
module of platform vocabulary:

- `Platform` (platform.dfy): the Win32 and XAudio2 vocabulary. It has the
  fixed-width integers, the HRESULT codes (including `HRESULT_FROM_WIN32`),
  vectors and voice pointers, `XAUDIO2_BUFFER`, and `VoiceCall`, the log of
  calls an object makes on the vendor's voice objects.
- `SampleSound` (sample_sound.dfy): class `SampleSound` from
  include/SampleSound.h. It holds the emitter record and its setters and
  getters, `initEmitter`, the three-point reverb curve, and the wide and narrow
  name strings. The name getters return NULL when the string is empty.
- `WavSampleSound` (wav_sample_sound.dfy): the playback state machine. It is
  written once as pure step functions (`InitPcmStep`, `StartStep`, `StopStep`,
  `RunStep`, `DestroyStep`, and `Apply` over a sequence of calls) and once as
  class `WavSampleSound`, whose methods are proved to follow those functions.
  The module also has `FindMediaFileCch`: a method with the source's parent
  walk as a loop, proved equal to the specification function `FindMedia`.
- `BasicAudio` (basic_audio.dfy): class `BasicAudio`. It covers the in-place
  channel-matrix edits, the four channel-voice calls, `init`/`destroy` and the
  `initialized` flag, `createSound` and the pointer-keyed registry, `run`, and
  the `play3DVoice` overloads. The engine lifecycle is also written as pure
  step functions, with a lemma over any sequence of `init`/`destroy` calls.

Vendor answers are parameters of the operations: HRESULTs of engine and voice
creation, submit and start results, the queued-buffer count `GetState` reports,
what the WAV reader returns, the file system and the directory walk the path
search sees, and the X3DAudio calculation. Every call an object makes on a voice
is appended to its `calls` log, so contracts state which vendor calls happen and
in what order.

`SOUND_MAP` is keyed by `LPCWSTR`, so keys are compared by address. The model
keeps that: a key is a `WPtr`, a pointer into a caller's buffer or into a
sound's own `name` or `filename` storage. `createSound` registers each sound
under its own name pointer. That contradicts the library's documented usage.
The usage comment at include/BasicAudio.h:25-26 looks a sound up by a string
literal, and so does StaticLibConsoleTest/StaticLibConsoleTest.cpp:41 and 72.
Such a lookup returns NULL, and the code then dereferences it
(`CallerPointerFindsNothing`). The getters `GetEmitterX` … `GetEmitterVZ`,
`GetSourceVoice`, `GetEmitter` and `GetNumChannels` are plain reads of a field.
The rows for the setters, `Play3DVoiceSound` and `GetMatrixCoefficients` state
what these getters return.

## Model

| member | source | states |
|---|---|---|
| Platform.HResultFromWin32 | WavSampleSound.cpp:317 | Zero and negative codes pass through unchanged. A positive code becomes a failure HRESULT that keeps the code's low 16 bits. |
| Platform.FileNotFoundCode | WavSampleSound.cpp:317 | HRESULT_FROM_WIN32(ERROR_FILE_NOT_FOUND) is 0x80070002. It is a failure, distinct from S_OK, E_INVALIDARG and E_FAIL. |
| SampleSound.Narrow | include/SampleSound.h:141-149 | The narrow copy has the wide string's length. Each character is the narrowing of the wide character at the same position. |
| SampleSound.NarrowKeepsLowCharacters | include/SampleSound.h:141-149 | Narrowing leaves every character below 256 as it was. |
| SampleSound.SampleSound.constructor | include/SampleSound.h:41-64 | Builds a fresh 3-point array of curve points (0, 0.5), (0.75, 1.0), (1.0, 0.0). The curve points at that array with PointCount 3 and is well formed: distances strictly increase from 0 to 1. The emitter is in its initEmitter state and every name string is empty. |
| SampleSound.SampleSound.InitEmitter | include/SampleSound.h:443-470 | Sets the emitter's defaults:<br>• ChannelCount 1, no cone.<br>• Position and velocity at the origin, front (0,0,1), top (0,1,0).<br>• ChannelRadius 1, InnerRadius 2, InnerRadiusAngle π/4.<br>• The default linear volume curve and the sound's own reverb curve.<br>• CurveDistanceScaler 14, the final value after the earlier FLT_MIN write.<br>• DopplerScaler 1, and no LFE or LPF curves. |
| SampleSound.SampleSound.SetFileName | include/SampleSound.h:141-144 | The file name becomes the argument and its narrow copy tracks it. |
| SampleSound.SampleSound.SetName | include/SampleSound.h:146-149 | The name becomes the argument and its narrow copy tracks it. |
| SampleSound.SampleSound.GetFileName | include/SampleSound.h:161-166 | Returns NULL exactly when the file name is empty. Otherwise returns a pointer to the sound's own file-name storage. |
| SampleSound.SampleSound.GetCFileName | include/SampleSound.h:168-173 | Returns the narrowing of the file name. The empty case, where the source builds a string from NULL, is excluded. |
| SampleSound.SampleSound.GetName | include/SampleSound.h:175-180 | Returns NULL exactly when the name is empty. Otherwise returns a pointer to the sound's own name storage. |
| SampleSound.SampleSound.GetCName | include/SampleSound.h:182-187 | Returns the narrowing of the name. The empty case is excluded. |
| SampleSound.SampleSound.SetEmitterX | include/SampleSound.h:263 | Afterwards GetEmitterX returns x. No other emitter field changes. |
| SampleSound.SampleSound.SetEmitterY | include/SampleSound.h:275 | Afterwards GetEmitterY returns y. No other emitter field changes. |
| SampleSound.SampleSound.SetEmitterZ | include/SampleSound.h:287 | Afterwards GetEmitterZ returns z. No other emitter field changes. |
| SampleSound.SampleSound.SetEmitterPos | include/SampleSound.h:301-305 | Afterwards GetEmitterX/Y/Z return x, y and z. Velocity and every other field keep their values. |
| SampleSound.SampleSound.SetEmitterVX | include/SampleSound.h:353 | Afterwards GetEmitterVX returns x. No other emitter field changes. |
| SampleSound.SampleSound.SetEmitterVY | include/SampleSound.h:365 | Afterwards GetEmitterVY returns y. No other emitter field changes. |
| SampleSound.SampleSound.SetEmitterVZ | include/SampleSound.h:377 | Afterwards GetEmitterVZ returns z. No other emitter field changes. |
| SampleSound.SampleSound.SetEmitterVelocity | include/SampleSound.h:391-395 | Afterwards GetEmitterVX/VY/VZ return x, y and z. Position and every other field keep their values. |
| WavSampleSound.InitPcmStep | WavSampleSound.cpp:117-125 | After a successful load the sound is created and not running, with the new voice live. The buffer is END_OF_STREAM and holds the wave data. AudioBytes is the size read and LoopCount is loopCount. The play and loop regions are unchanged. |
| WavSampleSound.StartStep | WavSampleSound.cpp:139-161 | An uncreated or already running sound is untouched and no call is made. A failed submit destroys the voice and clears creationComplete. A successful submit starts the voice and sets isRunning. Issued calls: submit then destroy, or submit then start. |
| WavSampleSound.StopStep | WavSampleSound.cpp:172-178 | Only a created, running sound changes: the voice is stopped and isRunning cleared. Every other sound is left untouched. |
| WavSampleSound.RunStep | WavSampleSound.cpp:192-205 | A created, running sound polls its voice and stays running exactly while buffers are queued. Any other sound is untouched. |
| WavSampleSound.DestroyStep | WavSampleSound.cpp:217-223 | creationComplete always ends false, and isRunning and the buffer are kept. The voice is destroyed only when the sound was created. |
| WavSampleSound.Perform | WavSampleSound.cpp:139-223 | Every operation keeps the invariant that a created sound has a live voice. |
| WavSampleSound.Apply | WavSampleSound.cpp:139-223 | Any sequence of calls keeps that invariant. |
| WavSampleSound.NoPlayingWithoutStart | WavSampleSound.cpp:139-161 | A sound that is not playing is playing after a sequence of calls only if one of those calls is a start whose submit succeeded. |
| WavSampleSound.UncreatedIsInert | WavSampleSound.cpp:139-223 | Without a successful initPCM, an uncreated sound stays exactly as it is and makes no voice call. |
| WavSampleSound.DestroyTwiceReleasesOnce | WavSampleSound.cpp:217-223 | destroy is idempotent: two destroys leave the state of one and release the voice at most once. |
| WavSampleSound.StartThenStop | WavSampleSound.cpp:139-178 | A successful start followed by stop returns an idle created sound to its state. The voice sees submit, start, stop. |
| WavSampleSound.LastIndexOf | WavSampleSound.cpp:259 | wcsrchr: None exactly when the character does not occur. Otherwise the index of its last occurrence. |
| WavSampleSound.HeldModulePath | WavSampleSound.cpp:257-258 | The module path as held in a MAX_PATH buffer: a prefix of at most MAX_PATH - 1 characters. A shorter path is kept whole. |
| WavSampleSound.ExeName | WavSampleSound.cpp:259-271 | The exe name is the text after the last backslash, cut at its last dot, with no backslash in it. It is empty when the path has no backslash. |
| WavSampleSound.Candidates | WavSampleSound.cpp:290-310 | Two candidate paths per directory of the walk. |
| WavSampleSound.SearchFindsFirstExisting | WavSampleSound.cpp:290-310 | A path the parent walk finds exists and fits both the destination and MAX_PATH. It is the first existing candidate in the order d\leaf, d\exe\leaf, parent… |
| WavSampleSound.SearchNotFoundMeansNoCandidate | WavSampleSound.cpp:290-310 | When the walk finds nothing, no candidate path exists. |
| WavSampleSound.FindInvalidArgumentIff | WavSampleSound.cpp:250-251 | E_INVALIDARG is returned exactly when the file name is NULL or empty, the destination is NULL, or cchDest < 10. The destination is then left unwritten. |
| WavSampleSound.FindOkMeansFileExists | WavSampleSound.cpp:273-312 | S_OK means the destination was written with an existing file's path that fits in cchDest. |
| WavSampleSound.FindNotFoundFallsBack | WavSampleSound.cpp:311-317 | FILE_NOT_FOUND means the destination holds the original file name. That file does not exist, the walk ran, and no candidate path exists. |
| WavSampleSound.WavSampleSound.constructor | WavSampleSound.cpp:15-32 | Not created, not running, every buffer field 0 or NULL. The voice pointer is not yet valid and the call log is empty. The base part starts with empty names and its emitter in the initEmitter state, as the SampleSound constructor leaves it. |
| WavSampleSound.WavSampleSound.Destruct | WavSampleSound.cpp:43-47 | The destructor acts exactly as destroy. |
| WavSampleSound.WavSampleSound.FindMediaFileCch | WavSampleSound.cpp:246-318 | The result and what is written to the destination equal FindMedia over the arguments and the environment. |
| WavSampleSound.WavSampleSound.WalkParents | WavSampleSound.cpp:290-310 | The search loop returns what the specification function SearchParents gives for the directory walk. |
| WavSampleSound.WavSampleSound.InitPCM | WavSampleSound.cpp:66-126 | The file name is set in every case. The result is the first failing status: find, open, read or create. On success the state is InitPcmStep's; on failure it is unchanged. No voice call is logged. The emitter and the name are left as they were. |
| WavSampleSound.WavSampleSound.Start | WavSampleSound.cpp:139-161 | The new state and issued calls are StartStep's. An uncreated sound returns S_FAILED and changes nothing. Otherwise the result is the submit error, S_OK when already running, or the voice's Start status. |
| WavSampleSound.WavSampleSound.Stop | WavSampleSound.cpp:172-178 | The new state and issued calls are StopStep's. |
| WavSampleSound.WavSampleSound.Run | WavSampleSound.cpp:192-205 | Always returns S_OK. The new state and issued calls are RunStep's. |
| WavSampleSound.WavSampleSound.Destroy | WavSampleSound.cpp:217-223 | The new state and issued calls are DestroyStep's. |
| BasicAudio.Magnitude | BasicAudio.cpp:233 | abs of any int except INT_MIN, where C's abs is undefined. |
| BasicAudio.NormalisedChannel | BasicAudio.cpp:233 | abs(channel) % nChannels lies in [0, nChannels). It is abs(channel) itself when that is already in range. |
| BasicAudio.NormalisedChannelIgnoresSign | BasicAudio.cpp:233 | channel and -channel select the same output channel. |
| BasicAudio.OneHot | BasicAudio.cpp:178-183 | n coefficients: val at index, clearVal everywhere else. |
| BasicAudio.UniformOneHotIgnoresIndex | BasicAudio.cpp:257-264 | When the value equals the clearing value, the index makes no difference: every coefficient holds that value. |
| BasicAudio.InitStep | BasicAudio.cpp:103-147 | The engine state after init:<br>• Both creations succeed: initialized, engine live, mastering voice live.<br>• Engine creation fails: only the status changes and the engine is not live.<br>• Mastering-voice creation fails: the engine is released and the voice pointer is NULL.<br>In both failure cases the flag keeps its value. |
| BasicAudio.DestroyEngineStep | BasicAudio.cpp:329-333 | After destroy the flag is cleared, the engine released and the mastering voice no longer valid. |
| BasicAudio.InitializedIffInitSinceDestroy | BasicAudio.cpp:103-147 | After any sequence of init and destroy calls, the flag is set exactly when it was set at the start with no destroy since, or some init succeeded with no destroy after it. |
| BasicAudio.RegisteringKeepsInvariant | BasicAudio.cpp:287 | Storing a valid sound under its own name pointer keeps the registry invariant: every key is its sound's own name pointer and every sound is valid. |
| BasicAudio.DistinctKeysHoldDistinctSounds | BasicAudio.cpp:287 | Under that invariant no sound is stored under two keys. |
| BasicAudio.RunEach | BasicAudio.cpp:300-308 | Each sound of the set is run exactly once. Its new state and calls are RunStep's. |
| BasicAudio.DestroyEach | BasicAudio.cpp:318-328 | Each sound of the set is destroyed exactly once. Its new state and calls are DestroyStep's. |
| BasicAudio.BasicAudio.constructor | BasicAudio.cpp:15-18 | The flag is false, nothing is live, the registry is empty and no matrix exists yet. |
| BasicAudio.BasicAudio.Destruct | BasicAudio.cpp:28-32 | When initialized, it acts exactly as destroy. Otherwise the engine state, the log and every registered sound are unchanged. |
| BasicAudio.BasicAudio.InitListener | BasicAudio.cpp:47-53 | The listener is at the origin, facing (0,0,1) with top (0,1,0), with zero velocity and no cone. |
| BasicAudio.BasicAudio.InitDspSettings | BasicAudio.cpp:76-93 | Allocates a fresh matrix of exactly nChannels coefficients with SrcChannelCount 1 and DstChannelCount nChannels. So the matrix has at least Src × Dst entries. There are no delay times and every output field is 0. |
| BasicAudio.BasicAudio.Init | BasicAudio.cpp:103-147 | The engine state is InitStep's. On success the device details, listener and DSP settings are set up, with a fresh matrix of nChannels coefficients. On either failure they are left as they were. |
| BasicAudio.BasicAudio.SetSingleMatrixVal | BasicAudio.cpp:178-183 | mat[index] becomes val and every other slot below size becomes clearVal. Every slot from size on is unchanged. |
| BasicAudio.BasicAudio.UpdateSingleMatrixVal | BasicAudio.cpp:185-188 | Only mat[index] changes, to val. size is not used. |
| BasicAudio.BasicAudio.Channel | BasicAudio.cpp:233 | The normalised channel is a valid index into the matrix. |
| BasicAudio.BasicAudio.PlayOnChannelVoice | BasicAudio.cpp:230-237 | With a non-null voice the matrix becomes one-hot (1.0 at the normalised channel, 0.0 elsewhere) and is sent to the mastering voice. A NULL voice changes nothing. |
| BasicAudio.BasicAudio.PlayOnChannelVoiceWithVolume | BasicAudio.cpp:239-246 | The same as PlayOnChannelVoice, with volume at the normalised channel. |
| BasicAudio.BasicAudio.AddToChannelVoice | BasicAudio.cpp:248-255 | Overwrites rather than adds: only the normalised slot becomes volume, and the matrix is sent. A NULL voice changes nothing. |
| BasicAudio.BasicAudio.ClearChannelVoice | BasicAudio.cpp:257-264 | With a non-null voice every coefficient becomes 0.0, whatever the channel, and the matrix is sent. A NULL voice changes nothing. |
| BasicAudio.BasicAudio.Play3DVoice | BasicAudio.cpp:204-215 | The calculation's coefficients replace the matrix and its outputs replace the DSP fields. A non-null voice then gets the doppler factor and the matrix, in that order. |
| BasicAudio.BasicAudio.Play3DVoiceSound | include/BasicAudio.h:64 | The same, with the sound's emitter and source voice. |
| BasicAudio.BasicAudio.Play3DVoiceByName | include/BasicAudio.h:65-68 | Looks the key up and spatialises the sound stored under it. The key must be present, since the lookup result is used without a NULL check. |
| BasicAudio.BasicAudio.NewSound | BasicAudio.cpp:283-286 | A fresh sound, loaded as initPCM gives and named soundName. Its emitter is in the initEmitter state. No existing sound changes. |
| BasicAudio.BasicAudio.CreateSound | BasicAudio.cpp:282-290 | The new sound is stored under its own name pointer, replacing any entry under that key. Every other entry is unchanged and getSoundByName with that pointer returns it. A non-empty name gives a key new to the map; an empty one gives the NULL key. The new sound's base part is valid, so its narrow names track the wide ones, and its emitter is in the initEmitter state. |
| BasicAudio.BasicAudio.Register | BasicAudio.cpp:287 | soundMap[key] = sound, keeping the registry invariant. |
| BasicAudio.BasicAudio.Run | BasicAudio.cpp:300-308 | Every registered sound is run once. Its new state and voice calls are RunStep's. |
| BasicAudio.BasicAudio.Destroy | BasicAudio.cpp:318-334 | Every registered sound is destroyed once (its state is DestroyStep's). Then the mastering voice is destroyed, the engine released and the flag cleared. The registry is unchanged. |
| BasicAudio.BasicAudio.ReleaseEngine | BasicAudio.cpp:329-333 | The mastering voice is destroyed and the engine state becomes DestroyEngineStep's. |
| BasicAudio.BasicAudio.GetSoundByName | include/BasicAudio.h:47-53 | Returns NULL exactly when the pointer is not a key. Otherwise returns the sound stored under it. Being a function, it leaves the map unchanged. |
| BasicAudio.BasicAudio.GetMatrixCoefficients | include/BasicAudio.h:59-60 | Once set up, the coefficient array has exactly getNumChannels() entries. |
| BasicAudio.CallerPointerFindsNothing | include/BasicAudio.h:16 | Keys compare by address, so a lookup with a caller's own string pointer never finds a registered sound, whatever its text. |

## Left out

- X3DAudioCalculate is a `Calculator` parameter. Its spatialisation numerics (matrix, doppler, LPF and reverb values) are not modelled, only where its results go.
- Vendor and COM calls are not modelled beyond their results and the call log:
  - `CoInitializeEx`/`CoUninitialize`, `X3DAudioInitialize` and the X3DAudio handle;
  - the debug engine flag;
  - `GetDeviceDetails`, whose answer is a parameter of `Init`.
- WAV reading (`CWaveFile` Open/GetSize/Read) becomes a `WaveLoad` parameter. Only its statuses and sizes are modelled, not the bytes.
- OS path calls in FindMediaFileCch are inputs of `MediaEnvironment`:
  - `GetModuleFileName` gives a string;
  - `GetFileAttributes` is a `fileExists` predicate;
  - `GetFullPathName` yields the parent walk as a finite sequence of directories.
- The parent walk's termination depends on the OS and is not modelled.
- `printMatrixCoefficients`, `wprintf`/`fwprintf` and every other console output are omitted.
- include/DxAudioInterfaceDLL.h, the DLL facade and the two console test programs are not part of this model.
- Memory ownership is not modelled: new/delete, `SAFE_DELETE_ARRAY` of the wave data, the leaked coefficient array and destructor ordering.
- BasicAudio.BasicAudio.InitDspSettings: the new coefficients have indeterminate values in C++; the contract says nothing about them.
- Uninitialised pointers are not modelled as arbitrary values. An unset or destroyed voice is `Invalid`, and the model's methods refuse a call through an `Invalid` voice.
- BasicAudio.BasicAudio.Init: a failed init leaves `initialized` as it was, because the code never writes the flag on an early return. From a new object, or after destroy, it therefore stays false.
- BasicAudio.BasicAudio.Destroy requires a live mastering voice, since destroy dereferences it unconditionally. Destruct calls it only when initialized, as the source does.
- BasicAudio.BasicAudio.Run and BasicAudio.BasicAudio.Destroy go over the registry's values rather than its iterator order. No sound is stored under two keys (DistinctKeysHoldDistinctSounds), so each entry is still visited once. The order of visits is not modelled.
- Renaming a registered sound with setName leaves its old key in the map. The model's registry invariant assumes names are not changed after registration and does not model those stale keys.
- Strings are modelled as sequences of their characters without the terminator. WCHAR is Dafny `char`, with one difference. A Dafny `char` is a Unicode scalar value, not a 16-bit UTF-16 unit, so a character outside the BMP is one `char` but two WCHARs, and a lone surrogate cannot be represented. Lengths are therefore counted in characters, not WCHARs: the narrow copy's length, the `cchDest < 10` check, and the MAX_PATH and cchDest fit tests of FindMedia. A narrow `char` is a `Byte`, and FLOAT32 is `real` (values are only stored, never computed).
- A `_s` CRT function that finds its destination too small is modelled as `FindOutcome.Aborted`, the invalid-parameter handler's abort. InitPCM and CreateSound require that this does not happen. They also require that a load reaching CreateSourceVoice has a live engine: calling it through a NULL or released `pXAudio2` is a NULL dereference in the source.
- SampleSound.SampleSound.GetCName and SampleSound.SampleSound.GetCFileName require a non-empty string, since the source then builds a `std::string` from NULL, which is undefined.
- BasicAudio.BasicAudio.ChannelUsable: a channel of INT_MIN is excluded, since C's abs is undefined there.
