/**
 * Win32, XAudio2 and D3DX vocabulary shared by the sound classes and the engine:
 * fixed-width integers, HRESULT status codes, vectors, voice handles, the
 * XAUDIO2_BUFFER record and the log of calls an object makes into the
 * vendor voice objects.
 */
module Platform {

  datatype Option<T> = None | Some(value: T)

  /** C `int` (32-bit, two's complement). */
  newtype int32 = x: int | -0x8000_0000 <= x < 0x8000_0000
  const INT32_MIN: int32 := -0x8000_0000

  /** UINT32 / DWORD / UINT. */
  newtype uint32 = x: int | 0 <= x < 0x1_0000_0000

  /** WORD, the type of WAVEFORMATEX.nChannels. */
  newtype uint16 = x: int | 0 <= x < 0x1_0000

  /** A C `char` byte, as the bit pattern it stores. */
  newtype Byte = x: int | 0 <= x < 0x100

  /** HRESULT: a signed 32-bit status; negative values are failures. */
  newtype HResult = x: int | -0x8000_0000 <= x < 0x8000_0000

  predicate Failed(hr: HResult) { hr < 0 }

  const S_OK: HResult := 0
  /** The library's own failure code, `((HRESULT)(-1L))`. */
  const S_FAILED: HResult := -1
  /** 0x80070057 */
  const E_INVALIDARG: HResult := -2147024809
  /** 0x80004005 */
  const E_FAIL: HResult := -2147467259

  const ERROR_FILE_NOT_FOUND: nat := 2
  const FACILITY_WIN32: nat := 7

  /**
   * HRESULT_FROM_WIN32: zero and negative codes are passed through, a positive
   * code keeps its low 16 bits under the Win32 facility with the severity bit set.
   */
  function HResultFromWin32(code: int32): (hr: HResult)
    ensures code <= 0 ==> hr as int == code as int
    ensures code > 0 ==> Failed(hr) && (hr as int) % 0x1_0000 == (code as int) % 0x1_0000
  {
    if code <= 0 then code as int as HResult
    else ((code as int % 0x1_0000) + FACILITY_WIN32 * 0x1_0000 + 0x8000_0000 - 0x1_0000_0000) as HResult
  }

  /** HRESULT_FROM_WIN32(ERROR_FILE_NOT_FOUND), 0x80070002. */
  const E_FILE_NOT_FOUND: HResult := HResultFromWin32(ERROR_FILE_NOT_FOUND as int32)

  lemma FileNotFoundCode()
    ensures E_FILE_NOT_FOUND == -2147024894
    ensures Failed(E_FILE_NOT_FOUND)
    ensures E_FILE_NOT_FOUND != E_INVALIDARG && E_FILE_NOT_FOUND != E_FAIL && E_FILE_NOT_FOUND != S_OK
  {
  }

  /** MAX_PATH: a path buffer of this many WCHARs holds at most MAX_PATH - 1 characters and the terminator. */
  const MAX_PATH: nat := 260

  /** D3DXVECTOR3; FLOAT32 components are modelled as reals (they are only stored, never computed on). */
  datatype Vector3 = Vector3(x: real, y: real, z: real)

  const Origin: Vector3 := Vector3(0.0, 0.0, 0.0)

  /**
   * An IXAudio2SourceVoice* as the code uses it: NULL, a live voice, or a value
   * that must not be dereferenced (never initialised, or already destroyed).
   */
  datatype VoicePtr = NoVoice | Live(id: nat) | Invalid

  /** XAUDIO2_END_OF_STREAM */
  const XAUDIO2_END_OF_STREAM: uint32 := 0x0040

  /**
   * XAUDIO2_BUFFER. `hasAudioData` says whether pAudioData points at wave data
   * (the bytes themselves are opaque here); `hasContext` stands for pContext.
   */
  datatype XAudio2Buffer = XAudio2Buffer(
    flags: uint32,
    audioBytes: uint32,
    hasAudioData: bool,
    playBegin: uint32,
    playLength: uint32,
    loopBegin: uint32,
    loopLength: uint32,
    loopCount: uint32,
    hasContext: bool)

  /** The buffer a new sound starts with: every field 0 or NULL. */
  const EmptyBuffer: XAudio2Buffer := XAudio2Buffer(0, 0, false, 0, 0, 0, 0, 0, false)

  /** A call made into a vendor voice object, recorded in the order it is made. */
  datatype VoiceCall =
    | SubmitSourceBuffer(voice: nat, buffer: XAudio2Buffer)
    | StartVoice(voice: nat)
    | StopVoice(voice: nat)
    | GetState(voice: nat)
    | DestroyVoice(voice: nat)
    | SetFrequencyRatio(voice: nat, ratio: real)
    /** voice->SetOutputMatrix(destination, sourceChannels, destinationChannels, coefficients) */
    | SetOutputMatrix(voice: nat, destination: VoicePtr, sourceChannels: nat, destinationChannels: nat, coefficients: seq<real>)
    | DestroyMasteringVoice(voice: nat)
}
