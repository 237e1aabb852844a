/**
 * The SampleSound base class: a sound's name and file name (wide and narrow
 * copies), its X3DAudio emitter and the fixed reverb distance curve that the
 * emitter points at.
 */
module SampleSound {
  import opened Platform

  /** FLT_MIN, the smallest normalised FLOAT32, about 1.17549435e-38. */
  const FLT_MIN: real := 1.17549435 / 100000000000000000000000000000000000000.0
  /** X3DAUDIO_PI */
  const X3DAUDIO_PI: real := 3.141592654

  /** X3DAUDIO_DISTANCE_CURVE_POINT */
  datatype CurvePoint = CurvePoint(distance: real, dspSetting: real)

  /**
   * X3DAUDIO_DISTANCE_CURVE. `pointsAtOwnArray` says that pPoints is the address of
   * the first element of the sound's own curve-point array.
   */
  datatype DistanceCurve = DistanceCurve(pointsAtOwnArray: bool, pointCount: nat)

  /** What a curve pointer of the emitter points at. */
  datatype CurveRef = NoCurve | DefaultLinearCurve | OwnReverbCurve

  /** X3DAUDIO_EMITTER, every field; pointer fields become references to what they point at. */
  datatype Emitter = Emitter(
    hasCone: bool,
    orientFront: Vector3,
    orientTop: Vector3,
    position: Vector3,
    velocity: Vector3,
    innerRadius: real,
    innerRadiusAngle: real,
    channelCount: nat,
    channelRadius: real,
    azimuthsAtOwnArray: bool,
    volumeCurve: CurveRef,
    lfeCurve: CurveRef,
    lpfDirectCurve: CurveRef,
    lpfReverbCurve: CurveRef,
    reverbCurve: CurveRef,
    curveDistanceScaler: real,
    dopplerScaler: real)

  /**
   * What X3DAudio asks of a distance curve: at least two points, the first at
   * distance 0, the last at distance 1, distances strictly increasing.
   */
  ghost predicate WellFormedCurve(points: seq<CurvePoint>)
  {
    && |points| >= 2
    && points[0].distance == 0.0
    && points[|points| - 1].distance == 1.0
    && forall i, j :: 0 <= i < j < |points| ==> points[i].distance < points[j].distance
  }

  /** The narrowing of one WCHAR to a `char`: the low eight bits of its code. */
  function NarrowChar(c: char): Byte
  {
    (c as int % 0x100) as Byte
  }

  /**
   * `string::assign(w.begin(), w.end())` from a wstring: one narrow character
   * per wide character, each converted by itself.
   */
  function Narrow(w: string): (r: seq<Byte>)
    ensures |r| == |w|
    ensures forall i :: 0 <= i < |w| ==> r[i] == NarrowChar(w[i])
  {
    seq(|w|, i requires 0 <= i < |w| => NarrowChar(w[i]))
  }

  /** Which buffer a wide-string pointer points into. */
  datatype Buffer =
    | CallerBuffer(id: nat)            // a string owned by the caller, such as a literal
    | NameBuffer(owner: SampleSound)       // the character data of owner's `name`
    | FileNameBuffer(owner: SampleSound)   // the character data of owner's `filename`

  /**
   * An LPCWSTR compared as the code compares it: by address, never by the text
   * it points at.
   */
  datatype WPtr = Null | Ptr(buffer: Buffer)

  class SampleSound {
    var filename: string
    var cFilename: seq<Byte>
    var name: string
    var cName: seq<Byte>
    var emitter: Emitter
    /** Emitter_Reverb_CurvePoints[3] */
    const reverbCurvePoints: array<CurvePoint>
    /** Emitter_Reverb_Curve */
    var reverbCurve: DistanceCurve

    /** The narrow copies follow the wide strings; the reverb curve is the fixed three-point one. */
    ghost predicate Valid()
      reads this, reverbCurvePoints
    {
      && cFilename == Narrow(filename)
      && cName == Narrow(name)
      && reverbCurvePoints.Length == 3
      && reverbCurve == DistanceCurve(true, reverbCurvePoints.Length)
      && WellFormedCurve(reverbCurvePoints[..])
    }

    /** Builds the reverb curve, initialises the emitter and clears the names. */
    constructor ()
      ensures Valid()
      ensures fresh(reverbCurvePoints)
      ensures reverbCurvePoints[..] == [CurvePoint(0.0, 0.5), CurvePoint(0.75, 1.0), CurvePoint(1.0, 0.0)]
      ensures reverbCurve.pointCount == 3 && reverbCurve.pointsAtOwnArray
      ensures WellFormedCurve(reverbCurvePoints[..])
      ensures InitialEmitter(emitter)
      ensures filename == [] && name == [] && cFilename == [] && cName == []
    {
      var points := new CurvePoint[3];
      points[0] := CurvePoint(0.0, 0.5);
      points[1] := CurvePoint(0.75, 1.0);
      points[2] := CurvePoint(1.0, 0.0);
      reverbCurvePoints := points;
      reverbCurve := DistanceCurve(true, 3);
      filename, cFilename, name, cName := [], [], [], [];
      new;
      InitEmitter();
      filename := [];
    }

    /** The emitter state that `initEmitter` leaves. */
    static ghost predicate InitialEmitter(e: Emitter)
    {
      && e.channelCount == 1
      && !e.hasCone
      && e.velocity == Origin
      && e.position == Origin
      && e.orientFront == Vector3(0.0, 0.0, 1.0)
      && e.orientTop == Vector3(0.0, 1.0, 0.0)
      && e.channelRadius == 1.0
      && e.azimuthsAtOwnArray
      && e.innerRadius == 2.0
      && e.innerRadiusAngle == X3DAUDIO_PI / 4.0
      && e.volumeCurve == DefaultLinearCurve
      && e.reverbCurve == OwnReverbCurve
      && e.curveDistanceScaler == 14.0
      && e.dopplerScaler == 1.0
      && e.lfeCurve == NoCurve && e.lpfDirectCurve == NoCurve && e.lpfReverbCurve == NoCurve
    }

    method InitEmitter()
      modifies this`emitter
      ensures InitialEmitter(emitter)
    {
      emitter := emitter.(channelCount := 1);
      emitter := emitter.(curveDistanceScaler := FLT_MIN);
      emitter := emitter.(hasCone := false);

      emitter := emitter.(velocity := Origin);
      emitter := emitter.(position := Origin);
      emitter := emitter.(orientFront := Vector3(0.0, 0.0, 1.0));
      emitter := emitter.(orientTop := Vector3(0.0, 1.0, 0.0));
      emitter := emitter.(channelCount := 1);
      emitter := emitter.(channelRadius := 1.0);
      emitter := emitter.(azimuthsAtOwnArray := true);

      emitter := emitter.(innerRadius := 2.0);
      emitter := emitter.(innerRadiusAngle := X3DAUDIO_PI / 4.0);

      emitter := emitter.(volumeCurve := DefaultLinearCurve);
      emitter := emitter.(reverbCurve := OwnReverbCurve);
      emitter := emitter.(curveDistanceScaler := 14.0);
      emitter := emitter.(dopplerScaler := 1.0);

      emitter := emitter.(lfeCurve := NoCurve);
      emitter := emitter.(lpfDirectCurve := NoCurve);
      emitter := emitter.(lpfReverbCurve := NoCurve);
    }

    method SetFileName(w: string)
      requires Valid()
      modifies this`filename, this`cFilename
      ensures Valid()
      ensures filename == w && cFilename == Narrow(w)
    {
      filename := w;
      cFilename := Narrow(filename);
    }

    method SetName(w: string)
      requires Valid()
      modifies this`name, this`cName
      ensures Valid()
      ensures name == w && cName == Narrow(w)
    {
      name := w;
      cName := Narrow(name);
    }

    /** NULL for an empty file name, otherwise a pointer to the stored file name. */
    function GetFileName(): (r: WPtr)
      reads this
      ensures r == Null <==> |filename| == 0
      ensures r != Null ==> r.buffer == FileNameBuffer(this)
    {
      if |filename| > 0 then Ptr(FileNameBuffer(this)) else Null
    }

    /** The narrow file name; the source builds a std::string from NULL when it is empty, so that is excluded. */
    function GetCFileName(): (r: seq<Byte>)
      requires Valid() && |cFilename| > 0
      reads this, reverbCurvePoints
      ensures r == Narrow(filename) && |r| == |filename|
    {
      cFilename
    }

    /** NULL for an empty name, otherwise a pointer to the stored name. */
    function GetName(): (r: WPtr)
      reads this
      ensures r == Null <==> |name| == 0
      ensures r != Null ==> r.buffer == NameBuffer(this)
    {
      if |name| > 0 then Ptr(NameBuffer(this)) else Null
    }

    /** The narrow name; as for GetCFileName, an empty one is excluded. */
    function GetCName(): (r: seq<Byte>)
      requires Valid() && |cName| > 0
      reads this, reverbCurvePoints
      ensures r == Narrow(name) && |r| == |name|
    {
      cName
    }

    function GetEmitterX(): real reads this { emitter.position.x }
    function GetEmitterY(): real reads this { emitter.position.y }
    function GetEmitterZ(): real reads this { emitter.position.z }
    function GetEmitterVX(): real reads this { emitter.velocity.x }
    function GetEmitterVY(): real reads this { emitter.velocity.y }
    function GetEmitterVZ(): real reads this { emitter.velocity.z }

    method SetEmitterX(x: real)
      modifies this`emitter
      ensures GetEmitterX() == x
      ensures emitter == old(emitter).(position := old(emitter.position).(x := x))
    {
      emitter := emitter.(position := emitter.position.(x := x));
    }

    method SetEmitterY(y: real)
      modifies this`emitter
      ensures GetEmitterY() == y
      ensures emitter == old(emitter).(position := old(emitter.position).(y := y))
    {
      emitter := emitter.(position := emitter.position.(y := y));
    }

    method SetEmitterZ(z: real)
      modifies this`emitter
      ensures GetEmitterZ() == z
      ensures emitter == old(emitter).(position := old(emitter.position).(z := z))
    {
      emitter := emitter.(position := emitter.position.(z := z));
    }

    method SetEmitterPos(x: real, y: real, z: real)
      modifies this`emitter
      ensures GetEmitterX() == x && GetEmitterY() == y && GetEmitterZ() == z
      ensures emitter.velocity == old(emitter.velocity)
      ensures emitter == old(emitter).(position := Vector3(x, y, z))
    {
      emitter := emitter.(position := emitter.position.(x := x));
      emitter := emitter.(position := emitter.position.(y := y));
      emitter := emitter.(position := emitter.position.(z := z));
    }

    method SetEmitterVX(x: real)
      modifies this`emitter
      ensures GetEmitterVX() == x
      ensures emitter == old(emitter).(velocity := old(emitter.velocity).(x := x))
    {
      emitter := emitter.(velocity := emitter.velocity.(x := x));
    }

    method SetEmitterVY(y: real)
      modifies this`emitter
      ensures GetEmitterVY() == y
      ensures emitter == old(emitter).(velocity := old(emitter.velocity).(y := y))
    {
      emitter := emitter.(velocity := emitter.velocity.(y := y));
    }

    method SetEmitterVZ(z: real)
      modifies this`emitter
      ensures GetEmitterVZ() == z
      ensures emitter == old(emitter).(velocity := old(emitter.velocity).(z := z))
    {
      emitter := emitter.(velocity := emitter.velocity.(z := z));
    }

    method SetEmitterVelocity(x: real, y: real, z: real)
      modifies this`emitter
      ensures GetEmitterVX() == x && GetEmitterVY() == y && GetEmitterVZ() == z
      ensures emitter.position == old(emitter.position)
      ensures emitter == old(emitter).(velocity := Vector3(x, y, z))
    {
      emitter := emitter.(velocity := emitter.velocity.(x := x));
      emitter := emitter.(velocity := emitter.velocity.(y := y));
      emitter := emitter.(velocity := emitter.velocity.(z := z));
    }
  }

  /** Narrowing keeps every character below 256 and maps it to itself; wider characters lose their high bits. */
  lemma NarrowKeepsLowCharacters(w: string)
    requires forall i :: 0 <= i < |w| ==> (w[i] as int) < 0x100
    ensures forall i :: 0 <= i < |w| ==> Narrow(w)[i] as int == w[i] as int
  {
  }
}
