/**
 * BasicAudio: the XAudio2 engine wrapper. It owns the engine, the mastering
 * voice, the X3DAudio listener and DSP settings (with the per-device channel
 * matrix), and a registry of the sounds it created, keyed by the address of
 * each sound's own name string.
 */
module BasicAudio {
  import opened Platform
  import opened SampleSound
  import opened WavSampleSound

  // ---------------------------------------------------------------------------
  // Channels
  // ---------------------------------------------------------------------------

  /** C's abs on an int other than INT_MIN. */
  function Magnitude(channel: int32): (m: nat)
    requires channel != INT32_MIN
    ensures m == channel as int || m == -(channel as int)
  {
    if channel < 0 then -(channel as int) else channel as int
  }

  lemma Remainder(m: nat, d: nat)
    requires 0 < d
    ensures m % d < d
    ensures m < d ==> m % d == m
  {
  }

  /** The channel a caller's index selects among n: abs(channel) % n. C's abs is undefined on INT_MIN. */
  function NormalisedChannel(channel: int32, n: uint16): (r: nat)
    requires n > 0 && channel != INT32_MIN
    ensures r < n as int
    ensures Magnitude(channel) < n as int ==> r == Magnitude(channel)
  {
    var m := Magnitude(channel);
    var d: nat := n as int;
    Remainder(m, d);
    m % d
  }

  /** The sign of the index does not matter. */
  lemma NormalisedChannelIgnoresSign(channel: int32, n: uint16)
    requires n > 0 && channel != INT32_MIN
    ensures NormalisedChannel((-(channel as int)) as int32, n) == NormalisedChannel(channel, n)
  {
  }

  /** n coefficients, all clearVal except val at index. */
  function OneHot(n: nat, index: nat, val: real, clearVal: real): (r: seq<real>)
    requires index < n
    ensures |r| == n && r[index] == val
    ensures forall i :: 0 <= i < n && i != index ==> r[i] == clearVal
  {
    seq(n, i requires 0 <= i < n => if i == index then val else clearVal)
  }

  /** When the unique value equals the clearing value, the channel makes no difference. */
  lemma UniformOneHotIgnoresIndex(n: nat, i: nat, j: nat, c: real)
    requires i < n && j < n
    ensures OneHot(n, i, c, c) == OneHot(n, j, c, c)
    ensures forall k :: 0 <= k < n ==> OneHot(n, i, c, c)[k] == c
  {
  }

  // ---------------------------------------------------------------------------
  // Engine records
  // ---------------------------------------------------------------------------

  /** The parts of XAUDIO2_DEVICE_DETAILS the code reads. */
  datatype DeviceDetails = DeviceDetails(nChannels: uint16, channelMask: uint32)

  /** X3DAUDIO_DSP_SETTINGS without its matrix pointer, which is a field of its own. */
  datatype DspSettings = DspSettings(
    srcChannelCount: nat,
    dstChannelCount: nat,
    hasDelayTimes: bool,
    lpfDirectCoefficient: real,
    lpfReverbCoefficient: real,
    reverbLevel: real,
    dopplerFactor: real,
    emitterToListenerAngle: real,
    emitterToListenerDistance: real,
    emitterVelocityComponent: real,
    listenerVelocityComponent: real)

  /** X3DAUDIO_LISTENER */
  datatype Listener = Listener(position: Vector3, orientFront: Vector3, orientTop: Vector3, velocity: Vector3, hasCone: bool)

  /** What X3DAudioCalculate writes into the DSP settings. */
  datatype Spatialisation = Spatialisation(
    coefficients: seq<real>,
    lpfDirectCoefficient: real,
    lpfReverbCoefficient: real,
    reverbLevel: real,
    dopplerFactor: real,
    emitterToListenerAngle: real,
    emitterToListenerDistance: real,
    emitterVelocityComponent: real,
    listenerVelocityComponent: real)

  /** X3DAudioCalculate as the vendor computes it from the listener and an emitter. */
  type Calculator = (Listener, Emitter) -> Spatialisation

  function WithSpatialisation(d: DspSettings, out: Spatialisation): DspSettings
  {
    d.(lpfDirectCoefficient := out.lpfDirectCoefficient,
       lpfReverbCoefficient := out.lpfReverbCoefficient,
       reverbLevel := out.reverbLevel,
       dopplerFactor := out.dopplerFactor,
       emitterToListenerAngle := out.emitterToListenerAngle,
       emitterToListenerDistance := out.emitterToListenerDistance,
       emitterVelocityComponent := out.emitterVelocityComponent,
       listenerVelocityComponent := out.listenerVelocityComponent)
  }

  // ---------------------------------------------------------------------------
  // The engine lifecycle
  // ---------------------------------------------------------------------------

  /** The lifecycle part of BasicAudio: the flag, the last status, the engine and the mastering voice. */
  datatype EngineState = EngineState(initialized: bool, hr: HResult, engineLive: bool, masteringVoice: VoicePtr)

  predicate InitSucceeds(engineResult: HResult, masterResult: HResult)
  {
    !Failed(engineResult) && !Failed(masterResult)
  }

  /**
   * init: create the engine, then the mastering voice; either failure releases
   * what was made and returns early, leaving the flag as it was.
   */
  function InitStep(s: EngineState, engineResult: HResult, masterResult: HResult, masterId: nat): (t: EngineState)
    ensures t.initialized <==> s.initialized || InitSucceeds(engineResult, masterResult)
    ensures InitSucceeds(engineResult, masterResult) <==> t.engineLive
    ensures Failed(engineResult) ==> t == s.(hr := engineResult, engineLive := false)
    ensures !Failed(engineResult) && Failed(masterResult) ==>
      t == s.(hr := masterResult, engineLive := false, masteringVoice := NoVoice)
    ensures InitSucceeds(engineResult, masterResult) ==> t == EngineState(true, masterResult, true, Live(masterId))
  {
    if Failed(engineResult) then s.(hr := engineResult, engineLive := false)
    else if Failed(masterResult) then s.(hr := masterResult, engineLive := false, masteringVoice := NoVoice)
    else EngineState(true, masterResult, true, Live(masterId))
  }

  /** destroy: the mastering voice is destroyed (the pointer then dangles), the engine released, the flag cleared. */
  function DestroyEngineStep(s: EngineState): (t: EngineState)
    requires s.masteringVoice.Live?
    ensures !t.initialized && !t.engineLive && t.masteringVoice == Invalid && t.hr == s.hr
  {
    s.(initialized := false, engineLive := false, masteringVoice := Invalid)
  }

  datatype EngineOp = InitOp(engineResult: HResult, masterResult: HResult, masterId: nat) | DestroyOp

  /** The lifecycle after a sequence of init and destroy calls; None once a destroy finds no live mastering voice. */
  function RunLifecycle(s: EngineState, ops: seq<EngineOp>): Option<EngineState>
    decreases |ops|
  {
    if ops == [] then Some(s)
    else
      match RunLifecycle(s, ops[..|ops| - 1])
      case None => None
      case Some(t) =>
        match ops[|ops| - 1]
        case InitOp(e, m, id) => Some(InitStep(t, e, m, id))
        case DestroyOp => if t.masteringVoice.Live? then Some(DestroyEngineStep(t)) else None
  }

  predicate SucceedsAt(ops: seq<EngineOp>, i: int)
    requires 0 <= i < |ops|
  {
    ops[i].InitOp? && InitSucceeds(ops[i].engineResult, ops[i].masterResult)
  }

  /** No destroy among ops[from..]. */
  predicate NoDestroyFrom(ops: seq<EngineOp>, from: int)
  {
    forall j :: from <= j < |ops| && 0 <= j ==> !ops[j].DestroyOp?
  }

  /**
   * The flag is set exactly when some init succeeded with no destroy after it
   * (or it was set to begin with and nothing destroyed it since).
   */
  lemma {:induction false} InitializedIffInitSinceDestroy(s: EngineState, ops: seq<EngineOp>)
    requires RunLifecycle(s, ops).Some?
    ensures RunLifecycle(s, ops).value.initialized <==>
      (s.initialized && NoDestroyFrom(ops, 0))
      || exists i :: 0 <= i < |ops| && SucceedsAt(ops, i) && NoDestroyFrom(ops, i + 1)
    decreases |ops|
  {
    if ops != [] {
      var n := |ops| - 1;
      var pre := ops[..n];
      InitializedIffInitSinceDestroy(s, pre);
      var t := RunLifecycle(s, pre).value;
      var last := ops[n];
      var before := (s.initialized && NoDestroyFrom(pre, 0))
        || exists i :: 0 <= i < |pre| && SucceedsAt(pre, i) && NoDestroyFrom(pre, i + 1);
      assert t.initialized <==> before;
      forall i | 0 <= i < n ensures SucceedsAt(ops, i) == SucceedsAt(pre, i) {
        assert ops[i] == pre[i];
      }
      if last.DestroyOp? {
        assert !NoDestroyFrom(ops, 0);
        forall i | 0 <= i < |ops| ensures !(SucceedsAt(ops, i) && NoDestroyFrom(ops, i + 1)) {
          if i < n { assert !NoDestroyFrom(ops, i + 1) by { assert ops[n].DestroyOp?; } }
        }
      } else if SucceedsAt(ops, n) {
        assert NoDestroyFrom(ops, n + 1);
      } else {
        assert RunLifecycle(s, ops).value.initialized == t.initialized;
        assert NoDestroyFrom(ops, 0) <==> NoDestroyFrom(pre, 0) by {
          if NoDestroyFrom(pre, 0) {
            forall j | 0 <= j < |ops| ensures !ops[j].DestroyOp? {
              if j < n { assert ops[j] == pre[j]; }
            }
          }
          if NoDestroyFrom(ops, 0) {
            forall j | 0 <= j < |pre| ensures !pre[j].DestroyOp? { assert ops[j] == pre[j]; }
          }
        }
        if before {
          if !(s.initialized && NoDestroyFrom(pre, 0)) {
            var i :| 0 <= i < |pre| && SucceedsAt(pre, i) && NoDestroyFrom(pre, i + 1);
            assert SucceedsAt(ops, i);
            forall j | i + 1 <= j < |ops| ensures !ops[j].DestroyOp? {
              if j < n { assert ops[j] == pre[j]; }
            }
          }
        } else {
          forall i | 0 <= i < |ops| && SucceedsAt(ops, i) ensures !NoDestroyFrom(ops, i + 1) {
            assert i < n;
            assert !NoDestroyFrom(pre, i + 1);
            var j :| i + 1 <= j < |pre| && pre[j].DestroyOp?;
            assert ops[j] == pre[j];
          }
        }
      }
    }
  }

  // ---------------------------------------------------------------------------
  // The engine object
  // ---------------------------------------------------------------------------

  const InitialListener: Listener :=
    Listener(Origin, Vector3(0.0, 0.0, 1.0), Vector3(0.0, 1.0, 0.0), Origin, false)

  /** A sound's own name string is the only pointer it is registered under. */
  ghost predicate KeysAreOwnNames(m: map<WPtr, WavSampleSound>, bases: set<SampleSound>)
    reads bases
  {
    forall k :: k in m ==> m[k].base in bases && m[k].base.GetName() == k
  }

  ghost predicate SoundsValid(m: map<WPtr, WavSampleSound>, sounds: set<WavSampleSound>)
    reads sounds
  {
    forall k :: k in m ==> m[k] in sounds && m[k].Valid()
  }

  /** Registering a valid sound under its own name pointer keeps both registry invariants. */
  lemma RegisteringKeepsInvariant(m: map<WPtr, WavSampleSound>, sounds: set<WavSampleSound>, bases: set<SampleSound>,
                                  key: WPtr, s: WavSampleSound)
    requires KeysAreOwnNames(m, bases) && SoundsValid(m, sounds)
    requires s.base.GetName() == key && s.Valid()
    ensures KeysAreOwnNames(m[key := s], bases + {s.base}) && SoundsValid(m[key := s], sounds + {s})
  {
  }

  /** No sound is registered under two keys, so going over the values visits each entry once. */
  lemma DistinctKeysHoldDistinctSounds(m: map<WPtr, WavSampleSound>, bases: set<SampleSound>)
    requires KeysAreOwnNames(m, bases)
    ensures forall k1, k2 :: k1 in m && k2 in m && m[k1] == m[k2] ==> k1 == k2
  {
  }

  /** Runs each sound of the set once; the vendor's queued-buffer count for each is a parameter. */
  method RunEach(ss: set<WavSampleSound>, buffersQueued: WavSampleSound -> nat)
    requires forall t :: t in ss ==> t.Valid()
    modifies ss
    ensures forall t :: t in ss ==> t.Valid()
    ensures forall t :: t in ss ==>
      var p := old(t.State());
      Consistent(p) && t.State() == RunStep(p, buffersQueued(t)).next && t.calls == old(t.calls) + RunStep(p, buffersQueued(t)).issued
  {
    var remaining := ss;
    while remaining != {}
      invariant remaining <= ss
      invariant forall t :: t in ss ==> t.Valid() && old(t.Valid())
      invariant forall t :: t in ss && t !in remaining ==>
        && t.State() == RunStep(old(t.State()), buffersQueued(t)).next
        && t.calls == old(t.calls) + RunStep(old(t.State()), buffersQueued(t)).issued
      invariant forall t :: t in remaining ==> t.State() == old(t.State()) && t.calls == old(t.calls)
      decreases remaining
    {
      var t :| t in remaining;
      var _ := t.Run(buffersQueued(t));
      remaining := remaining - {t};
    }
  }

  /** Destroys each sound of the set once. */
  method DestroyEach(ss: set<WavSampleSound>)
    requires forall t :: t in ss ==> t.Valid()
    modifies ss
    ensures forall t :: t in ss ==> t.Valid()
    ensures forall t :: t in ss ==>
      var p := old(t.State());
      Consistent(p) && t.State() == DestroyStep(p).next && t.calls == old(t.calls) + DestroyStep(p).issued
  {
    var remaining := ss;
    while remaining != {}
      invariant remaining <= ss
      invariant forall t :: t in ss ==> t.Valid() && old(t.Valid())
      invariant forall t :: t in ss && t !in remaining ==>
        && t.State() == DestroyStep(old(t.State())).next
        && t.calls == old(t.calls) + DestroyStep(old(t.State())).issued
      invariant forall t :: t in remaining ==> t.State() == old(t.State()) && t.calls == old(t.calls)
      decreases remaining
    {
      var t :| t in remaining;
      t.Destroy();
      remaining := remaining - {t};
    }
  }

  class BasicAudio {
    var initialized: bool
    var hr: HResult
    /** pXAudio2 is a live engine. */
    var engineLive: bool
    var masteringVoice: VoicePtr
    /** SOUND_MAP: LPCWSTR keys compared by address. */
    var soundMap: map<WPtr, WavSampleSound>
    /** The SampleSound parts of the registered sounds (and of sounds since replaced). */
    ghost var soundBases: set<SampleSound>
    /** The registered sounds (and sounds since replaced). */
    ghost var sounds: set<WavSampleSound>
    var device: DeviceDetails
    var dsp: DspSettings
    /** dspSettings.pMatrixCoefficients; null until the DSP settings are set up. */
    var matrix: array?<real>
    var listener: Listener
    /** The calls this object has made on source voices and on the mastering voice. */
    var calls: seq<VoiceCall>

    function Engine(): EngineState
      reads this
    {
      EngineState(initialized, hr, engineLive, masteringVoice)
    }

    /** The matrix holds SrcChannelCount * DstChannelCount = nChannels coefficients. */
    predicate MatrixSized()
      reads this`matrix, this`dsp, this`device
    {
      matrix != null ==>
        && dsp.srcChannelCount == 1
        && dsp.dstChannelCount == device.nChannels as int
        && matrix.Length == device.nChannels as int
    }

    /**
     * Every registered sound is valid and sits under its own name pointer. A
     * method that modifies none of the fields read here keeps it.
     */
    ghost predicate Registered()
      reads this`soundMap, this`sounds, this`soundBases, sounds, soundBases
    {
      KeysAreOwnNames(soundMap, soundBases) && SoundsValid(soundMap, sounds)
    }

    ghost predicate Valid()
      reads this`matrix, this`dsp, this`device, this`soundMap, this`sounds, this`soundBases, sounds, soundBases
    {
      MatrixSized() && Registered()
    }

    constructor ()
      ensures Valid()
      ensures !initialized && !engineLive && masteringVoice == Invalid
      ensures soundMap == map[] && matrix == null && calls == []
    {
      initialized := false;
      hr := S_OK;
      engineLive := false;
      masteringVoice := Invalid;
      soundMap := map[];
      soundBases := {};
      sounds := {};
      device := DeviceDetails(0, 0);
      dsp := DspSettings(0, 0, false, 0.0, 0.0, 0.0, 0.0, 0.0, 0.0, 0.0, 0.0);
      matrix := null;
      listener := InitialListener;
      calls := [];
    }

    /** ~BasicAudio: destroy only when initialized. */
    method Destruct()
      requires Valid()
      requires initialized ==> masteringVoice.Live?
      modifies this`calls, this`masteringVoice, this`engineLive, this`initialized, soundMap.Values
      ensures Valid()
      ensures soundMap == old(soundMap)
      ensures !old(initialized) ==> Engine() == old(Engine()) && calls == old(calls)
      ensures !old(initialized) ==> forall t :: t in soundMap.Values ==> t.State() == old(t.State()) && t.calls == old(t.calls)
      ensures old(initialized) ==> Engine() == DestroyEngineStep(old(Engine()))
      ensures old(initialized) ==> calls == old(calls) + [DestroyMasteringVoice(old(masteringVoice).id)]
      ensures old(initialized) ==> forall t :: t in soundMap.Values ==>
        var p := old(t.State());
        Consistent(p) && t.State() == DestroyStep(p).next && t.calls == old(t.calls) + DestroyStep(p).issued
    {
      if initialized {
        Destroy();
      }
    }

    method InitListener()
      modifies this`listener
      ensures listener == InitialListener
    {
      listener := listener.(position := Origin);
      listener := listener.(orientFront := Vector3(0.0, 0.0, 1.0));
      listener := listener.(orientTop := Vector3(0.0, 1.0, 0.0));
      listener := listener.(velocity := Origin);
      listener := listener.(hasCone := false);
    }

    /**
     * One source channel to every device channel: a fresh matrix of exactly
     * nChannels coefficients (their values are not set), no delay times, and
     * every output zero.
     */
    method InitDspSettings(dd: DeviceDetails)
      modifies this`dsp, this`matrix
      ensures matrix != null && fresh(matrix) && matrix.Length == dd.nChannels as int
      ensures dsp.srcChannelCount == 1 && dsp.dstChannelCount == dd.nChannels as int
      ensures matrix.Length >= dsp.srcChannelCount * dsp.dstChannelCount
      ensures !dsp.hasDelayTimes
      ensures dd == device ==> MatrixSized()
      ensures dsp == DspSettings(1, dd.nChannels as int, false, 0.0, 0.0, 0.0, 0.0, 0.0, 0.0, 0.0, 0.0)
    {
      var coefficients := new real[dd.nChannels as int];
      dsp := dsp.(srcChannelCount := 1, dstChannelCount := dd.nChannels as int);
      matrix := coefficients;
      dsp := dsp.(hasDelayTimes := false);
      dsp := dsp.(lpfDirectCoefficient := 0.0, lpfReverbCoefficient := 0.0, reverbLevel := 0.0);
      dsp := dsp.(dopplerFactor := 0.0, emitterToListenerAngle := 0.0);
      dsp := dsp.(emitterToListenerDistance := 0.0, emitterVelocityComponent := 0.0, listenerVelocityComponent := 0.0);
    }

    /**
     * Creates the engine and the mastering voice, then reads the device and sets
     * up the DSP settings and the listener. The vendor's answers are parameters.
     */
    method Init(engineResult: HResult, masterResult: HResult, masterId: nat, details: DeviceDetails)
      requires MatrixSized()
      modifies this`initialized, this`hr, this`engineLive, this`masteringVoice, this`device, this`dsp, this`matrix, this`listener
      ensures MatrixSized()
      ensures Engine() == InitStep(old(Engine()), engineResult, masterResult, masterId)
      ensures InitSucceeds(engineResult, masterResult) ==>
        && device == details && listener == InitialListener
        && matrix != null && fresh(matrix) && matrix.Length == details.nChannels as int
        && dsp == DspSettings(1, details.nChannels as int, false, 0.0, 0.0, 0.0, 0.0, 0.0, 0.0, 0.0, 0.0)
      ensures !InitSucceeds(engineResult, masterResult) ==>
        device == old(device) && listener == old(listener) && matrix == old(matrix) && dsp == old(dsp)
    {
      engineLive := false;
      hr := engineResult;
      if Failed(hr) {
        return;
      }
      engineLive := true;
      masteringVoice := NoVoice;
      hr := masterResult;
      if Failed(hr) {
        engineLive := false;
        return;
      }
      masteringVoice := Live(masterId);
      device := details;
      InitDspSettings(device);
      InitListener();
      initialized := true;
    }

    /** Clear the first `size` coefficients to clearVal, then put val at index. */
    static method SetSingleMatrixVal(mat: array<real>, size: int32, index: nat, val: real, clearVal: real)
      requires index < mat.Length && size as int <= mat.Length
      modifies mat
      ensures mat[index] == val
      ensures forall i :: 0 <= i < mat.Length && i != index ==>
        mat[i] == (if i < size as int then clearVal else old(mat[i]))
    {
      var i := 0;
      while i < size as int
        invariant 0 <= i <= (if size < 0 then 0 else size as int)
        invariant forall j :: 0 <= j < mat.Length ==> mat[j] == (if j < i then clearVal else old(mat[j]))
      {
        mat[i] := clearVal;
        i := i + 1;
      }
      mat[index] := val;
    }

    /** Overwrite one coefficient; the size is not used. */
    static method UpdateSingleMatrixVal(mat: array<real>, size: int32, index: nat, val: real)
      requires index < mat.Length
      modifies mat
      ensures mat[..] == old(mat[..])[index := val]
    {
      mat[index] := val;
    }

    /** What a voice call on a non-null source voice needs: a sized matrix and an index abs can take. */
    predicate ChannelUsable(channel: int32)
      reads this
    {
      matrix != null && matrix.Length == device.nChannels as int && device.nChannels > 0 && channel != INT32_MIN
    }

    /** The channel the call acts on. */
    function Channel(channel: int32): (c: nat)
      requires ChannelUsable(channel)
      reads this
      ensures c < matrix.Length
    {
      NormalisedChannel(channel, device.nChannels)
    }

    /** The call that sends the current matrix to the mastering voice. */
    function OutputMatrixCall(voice: nat): VoiceCall
      requires matrix != null
      reads this, matrix
    {
      SetOutputMatrix(voice, masteringVoice, 1, device.nChannels as nat, matrix[..])
    }

    /** Play a voice on one channel only: 1.0 there, 0.0 on every other channel. */
    method PlayOnChannelVoice(voice: VoicePtr, channel: int32)
      requires MatrixSized() && voice != Invalid
      requires voice.Live? ==> ChannelUsable(channel)
      modifies this`calls, matrix
      ensures MatrixSized()
      ensures voice.NoVoice? ==> calls == old(calls) && (matrix != null ==> matrix[..] == old(matrix[..]))
      ensures voice.Live? ==> matrix[..] == OneHot(matrix.Length, Channel(channel), 1.0, 0.0)
      ensures voice.Live? ==> calls == old(calls) + [OutputMatrixCall(voice.id)]
    {
      if voice.Live? {
        var ch := NormalisedChannel(channel, device.nChannels);
        SetSingleMatrixVal(matrix, device.nChannels as int32, ch, 1.0, 0.0);
        assert matrix[..] == OneHot(matrix.Length, ch, 1.0, 0.0);
        calls := calls + [SetOutputMatrix(voice.id, masteringVoice, 1, device.nChannels as nat, matrix[..])];
      }
    }

    /** Play a voice on one channel only, at the given volume. */
    method PlayOnChannelVoiceWithVolume(voice: VoicePtr, channel: int32, volume: real)
      requires MatrixSized() && voice != Invalid
      requires voice.Live? ==> ChannelUsable(channel)
      modifies this`calls, matrix
      ensures MatrixSized()
      ensures voice.NoVoice? ==> calls == old(calls) && (matrix != null ==> matrix[..] == old(matrix[..]))
      ensures voice.Live? ==> matrix[..] == OneHot(matrix.Length, Channel(channel), volume, 0.0)
      ensures voice.Live? ==> calls == old(calls) + [OutputMatrixCall(voice.id)]
    {
      if voice.Live? {
        var ch := NormalisedChannel(channel, device.nChannels);
        SetSingleMatrixVal(matrix, device.nChannels as int32, ch, volume, 0.0);
        assert matrix[..] == OneHot(matrix.Length, ch, volume, 0.0);
        calls := calls + [SetOutputMatrix(voice.id, masteringVoice, 1, device.nChannels as nat, matrix[..])];
      }
    }

    /** Set the volume of one channel, keeping every other channel as it was. */
    method AddToChannelVoice(voice: VoicePtr, channel: int32, volume: real)
      requires MatrixSized() && voice != Invalid
      requires voice.Live? ==> ChannelUsable(channel)
      modifies this`calls, matrix
      ensures MatrixSized()
      ensures voice.NoVoice? ==> calls == old(calls) && (matrix != null ==> matrix[..] == old(matrix[..]))
      ensures voice.Live? ==> matrix[..] == old(matrix[..])[Channel(channel) := volume]
      ensures voice.Live? ==> calls == old(calls) + [OutputMatrixCall(voice.id)]
    {
      if voice.Live? {
        var ch := NormalisedChannel(channel, device.nChannels);
        UpdateSingleMatrixVal(matrix, device.nChannels as int32, ch, volume);
        calls := calls + [SetOutputMatrix(voice.id, masteringVoice, 1, device.nChannels as nat, matrix[..])];
      }
    }

    /** Silence the voice on every channel, whichever channel is named. */
    method ClearChannelVoice(voice: VoicePtr, channel: int32)
      requires MatrixSized() && voice != Invalid
      requires voice.Live? ==> ChannelUsable(channel)
      modifies this`calls, matrix
      ensures MatrixSized()
      ensures voice.NoVoice? ==> calls == old(calls) && (matrix != null ==> matrix[..] == old(matrix[..]))
      ensures voice.Live? ==> forall i :: 0 <= i < matrix.Length ==> matrix[i] == 0.0
      ensures voice.Live? ==> calls == old(calls) + [OutputMatrixCall(voice.id)]
    {
      if voice.Live? {
        var ch := NormalisedChannel(channel, device.nChannels);
        SetSingleMatrixVal(matrix, device.nChannels as int32, ch, 0.0, 0.0);
        calls := calls + [SetOutputMatrix(voice.id, masteringVoice, 1, device.nChannels as nat, matrix[..])];
      }
    }

    /**
     * Spatialise an emitter: the vendor's calculation replaces the matrix and
     * the DSP outputs; a non-null voice then gets the doppler factor and the matrix.
     */
    method Play3DVoice(emitter: Emitter, voice: VoicePtr, calculate: Calculator)
      requires MatrixSized() && voice != Invalid && matrix != null
      requires |calculate(listener, emitter).coefficients| == matrix.Length
      modifies this`dsp, this`calls, matrix
      ensures MatrixSized()
      ensures matrix[..] == calculate(listener, emitter).coefficients
      ensures dsp == WithSpatialisation(old(dsp), calculate(listener, emitter))
      ensures voice.NoVoice? ==> calls == old(calls)
      ensures voice.Live? ==>
        calls == old(calls) + [SetFrequencyRatio(voice.id, calculate(listener, emitter).dopplerFactor), OutputMatrixCall(voice.id)]
    {
      var out := calculate(listener, emitter);
      forall i | 0 <= i < matrix.Length {
        matrix[i] := out.coefficients[i];
      }
      assert matrix[..] == out.coefficients;
      dsp := WithSpatialisation(dsp, out);
      if voice.Live? {
        calls := calls + [SetFrequencyRatio(voice.id, dsp.dopplerFactor)];
        calls := calls + [SetOutputMatrix(voice.id, masteringVoice, 1, device.nChannels as nat, matrix[..])];
      }
    }

    /** play3DVoice(SampleSound*): the sound's emitter and source voice. */
    method Play3DVoiceSound(sound: WavSampleSound, calculate: Calculator)
      requires MatrixSized() && matrix != null
      requires sound.GetSourceVoice() != Invalid
      requires |calculate(listener, sound.GetEmitter()).coefficients| == matrix.Length
      modifies this`dsp, this`calls, matrix
      ensures MatrixSized()
      ensures matrix[..] == calculate(listener, sound.GetEmitter()).coefficients
      ensures dsp == WithSpatialisation(old(dsp), calculate(listener, sound.GetEmitter()))
      ensures sound.GetSourceVoice().NoVoice? ==> calls == old(calls)
      ensures sound.GetSourceVoice().Live? ==>
        calls == old(calls) + [SetFrequencyRatio(sound.GetSourceVoice().id, calculate(listener, sound.GetEmitter()).dopplerFactor),
                               OutputMatrixCall(sound.GetSourceVoice().id)]
    {
      Play3DVoice(sound.GetEmitter(), sound.GetSourceVoice(), calculate);
    }

    /** play3DVoice(LPCWSTR): looks the sound up and uses it without a NULL check. */
    method Play3DVoiceByName(soundName: WPtr, calculate: Calculator)
      requires MatrixSized() && matrix != null
      requires soundName in soundMap
      requires soundMap[soundName].GetSourceVoice() != Invalid
      requires |calculate(listener, soundMap[soundName].GetEmitter()).coefficients| == matrix.Length
      modifies this`dsp, this`calls, matrix
      ensures MatrixSized()
      ensures var sound := soundMap[soundName];
        && matrix[..] == calculate(listener, sound.GetEmitter()).coefficients
        && dsp == WithSpatialisation(old(dsp), calculate(listener, sound.GetEmitter()))
        && (sound.GetSourceVoice().NoVoice? ==> calls == old(calls))
        && (sound.GetSourceVoice().Live? ==>
              calls == old(calls) + [SetFrequencyRatio(sound.GetSourceVoice().id, calculate(listener, sound.GetEmitter()).dopplerFactor),
                                     OutputMatrixCall(sound.GetSourceVoice().id)])
    {
      var ss := GetSoundByName(soundName);
      Play3DVoiceSound(ss.value, calculate);
    }

    /** createSound's first steps: a new sound, read from the file and named; no registered object changes. */
    static method NewSound(engineLive: bool, soundName: string, strFilename: string, loopCount: uint32,
                           env: MediaEnvironment, load: WaveLoad)
      returns (s: WavSampleSound)
      requires !FindMedia(Some(strFilename), false, MAX_PATH as int32, env).Aborted?
      requires engineLive || !ReachesVoiceCreation(strFilename, env, load)
      ensures fresh(s) && fresh(s.base)
      ensures s.Valid() && s.base.Valid()
      ensures s.base.name == soundName && s.base.filename == strFilename
      ensures !Failed(InitPcmResult(strFilename, env, load)) ==>
        s.State() == InitPcmStep(Playback(false, false, Invalid, EmptyBuffer), load.voiceId, load.bytesRead, loopCount)
      ensures Failed(InitPcmResult(strFilename, env, load)) ==> s.State() == Playback(false, false, Invalid, EmptyBuffer)
      ensures s.calls == []
      ensures SampleSound.InitialEmitter(s.base.emitter)
    {
      s := new WavSampleSound();
      var _ := s.InitPCM(engineLive, strFilename, loopCount, env, load);
      s.base.SetName(soundName);
    }

    /**
     * A new sound: read from the file, named, and registered under its own
     * name pointer, which replaces any entry under that pointer.
     */
    method CreateSound(soundName: string, strFilename: string, loopCount: uint32, env: MediaEnvironment, load: WaveLoad)
      returns (s: WavSampleSound)
      requires Valid()
      requires !FindMedia(Some(strFilename), false, MAX_PATH as int32, env).Aborted?
      requires engineLive || !ReachesVoiceCreation(strFilename, env, load)
      modifies this`soundMap, this`soundBases, this`sounds
      ensures Valid()
      ensures fresh(s) && fresh(s.base)
      ensures s.base.name == soundName && s.base.filename == strFilename
      ensures soundMap == old(soundMap)[s.base.GetName() := s]
      ensures GetSoundByName(s.base.GetName()) == Some(s)
      ensures |soundName| > 0 ==> s.base.GetName() == Ptr(NameBuffer(s.base)) && s.base.GetName() !in old(soundMap)
      ensures |soundName| == 0 ==> s.base.GetName() == Null
      ensures !Failed(InitPcmResult(strFilename, env, load)) ==>
        s.State() == InitPcmStep(Playback(false, false, Invalid, EmptyBuffer), load.voiceId, load.bytesRead, loopCount)
      ensures Failed(InitPcmResult(strFilename, env, load)) ==> s.State() == Playback(false, false, Invalid, EmptyBuffer)
      ensures s.calls == []
      ensures s.base.Valid() && SampleSound.InitialEmitter(s.base.emitter)
    {
      s := NewSound(engineLive, soundName, strFilename, loopCount, env, load);
      Register(s.base.GetName(), s);
    }

    /** soundMap[key] = sound, keeping the registry invariant: the key is the sound's own name pointer. */
    method Register(key: WPtr, s: WavSampleSound)
      requires Registered() && s.Valid() && key == s.base.GetName()
      modifies this`soundMap, this`soundBases, this`sounds
      ensures Registered()
      ensures soundMap == old(soundMap)[key := s]
    {
      RegisteringKeepsInvariant(soundMap, sounds, soundBases, key, s);
      soundMap := soundMap[key := s];
      soundBases := soundBases + {s.base};
      sounds := sounds + {s};
    }

    /** Run every registered sound once; the vendor's queued-buffer count for each is a parameter. */
    method Run(buffersQueued: WavSampleSound -> nat)
      requires Valid()
      modifies soundMap.Values
      ensures Valid()
      ensures forall t :: t in soundMap.Values ==>
        var p := old(t.State());
        Consistent(p) && t.State() == RunStep(p, buffersQueued(t)).next && t.calls == old(t.calls) + RunStep(p, buffersQueued(t)).issued
    {
      // Each sound sits under one key only, so visiting the values visits each entry once.
      DistinctKeysHoldDistinctSounds(soundMap, soundBases);
      RunEach(soundMap.Values, buffersQueued);
    }

    /** Destroy every registered sound, then the mastering voice and the engine. */
    method Destroy()
      requires Valid() && masteringVoice.Live?
      modifies this`calls, this`masteringVoice, this`engineLive, this`initialized, soundMap.Values
      ensures Valid()
      ensures soundMap == old(soundMap)
      ensures Engine() == DestroyEngineStep(old(Engine()))
      ensures calls == old(calls) + [DestroyMasteringVoice(old(masteringVoice).id)]
      ensures forall t :: t in old(soundMap.Values) ==>
        var p := old(t.State());
        Consistent(p) && t.State() == DestroyStep(p).next && t.calls == old(t.calls) + DestroyStep(p).issued
    {
      DestroyEach(soundMap.Values);
      assert Registered();
      ReleaseEngine();
      assert Registered();
    }

    /** destroy's second half: the mastering voice is destroyed, the engine released and the flag cleared. */
    method ReleaseEngine()
      requires masteringVoice.Live?
      modifies this`calls, this`masteringVoice, this`engineLive, this`initialized
      ensures Engine() == DestroyEngineStep(old(Engine()))
      ensures calls == old(calls) + [DestroyMasteringVoice(old(masteringVoice).id)]
    {
      calls := calls + [DestroyMasteringVoice(masteringVoice.id)];
      masteringVoice := Invalid;
      engineLive := false;
      initialized := false;
    }

    /** NULL exactly when the pointer is not a key; otherwise the sound stored under it. */
    function GetSoundByName(soundName: WPtr): (r: Option<WavSampleSound>)
      reads this
      ensures r.None? <==> soundName !in soundMap
      ensures r.Some? ==> soundName in soundMap && r.value == soundMap[soundName]
    {
      if soundName !in soundMap then None else Some(soundMap[soundName])
    }

    function GetNumChannels(): int
      reads this
    {
      device.nChannels as int
    }

    /** The coefficient array holds exactly as many entries as the device has channels. */
    function GetMatrixCoefficients(): (r: array?<real>)
      requires MatrixSized()
      reads this
      ensures r != null ==> r.Length == GetNumChannels()
    {
      matrix
    }
  }

  /**
   * Keys compare by address: a sound is registered under its own name buffer,
   * so a lookup with a caller's string pointer never finds it, whatever text
   * that string holds.
   */
  lemma CallerPointerFindsNothing(audio: BasicAudio, id: nat)
    requires audio.Valid()
    ensures audio.GetSoundByName(Ptr(CallerBuffer(id))).None?
  {
  }
}
