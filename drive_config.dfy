/** `DriveConfig`: the parameter set of one drive, its defaults, and its
    persistence as one opaque string. */
module DriveConfigs {
  import opened Numerics

  /** The eight component tags offered by the dialog. */
  const Ring := "Ring"
  const Disc := "Disc"
  const BearingSeat := "Bearing Seat"
  const Rollers := "Rollers"
  const Cage := "Cage"
  const Cam := "Cam"
  const Brace := "Brace"
  const Output := "Output"

  const AllTags: set<string> := {Ring, Disc, BearingSeat, Rollers, Cage, Cam, Brace, Output}

  /** A snapshot of every attribute of a `DriveConfig` object. Lengths are in
      centimetres, the unit of the CAD kernel. */
  datatype Config = Config(
    rollerCount: int,
    rollerDiameter: real,
    rollerSpacing: real,
    camBearingOuterDiameter: real,
    camBearingInnerDiameter: real,
    shaftBearingDiameter: real,
    shaftDiameter: real,
    ringBoltCount: int,
    ringBoltDiameter: real,
    discBoltCount: int,
    discBoltDiameter: real,
    chamferRingBoltHoles: bool,
    chamferDiscBoltHoles: bool,
    outputPinDiameter: real,
    outputBearingBallDiameter: real,
    components: set<string>)

  /** The values `DriveConfig.__init__` assigns: every count and every
      length positive, the spacing factor non-negative, and the roller
      diameter less than ten ring bolt diameters. */
  function Defaults(): (c: Config)
    ensures c.rollerCount > 0 && c.ringBoltCount > 0 && c.discBoltCount > 0
    ensures c.rollerDiameter > 0.0 && c.rollerSpacing >= 0.0
    ensures c.camBearingOuterDiameter > 0.0 && c.camBearingInnerDiameter > 0.0
    ensures c.shaftBearingDiameter > 0.0 && c.shaftDiameter > 0.0
    ensures c.ringBoltDiameter > 0.0 && c.discBoltDiameter > 0.0
    ensures c.outputPinDiameter > 0.0 && c.outputBearingBallDiameter > 0.0
    ensures 10.0 * c.ringBoltDiameter > c.rollerDiameter
  {
    Config(13, 0.5, 1.0, 1.5, 1.0, 0.3, 0.31, 12, 0.21, 8, 0.21, false, false, 0.36, 0.5, AllTags)
  }

  /** Pickling plus base64, reduced to a pair of functions. `decode` yields
      `None` where `pickle.loads` raises. */
  datatype Codec = Codec(encode: Config -> string, decode: string -> Option<Config>)

  /** What the persistence layer promises: decoding an encoding gives back
      every attribute. */
  ghost predicate RoundTrips(c: Codec)
  {
    forall f :: c.decode(c.encode(f)) == Some(f)
  }

  /** The mutable configuration object shared by the dialog handlers. Its
      state is its attribute dictionary (`__dict__`), which `Load` replaces
      as a whole and the dialog updates one attribute at a time. */
  class DriveConfig {
    var attributes: Config

    constructor ()
      ensures attributes == Defaults()
    {
      attributes := Defaults();
    }

    /** `Load`: replaces every attribute at once by the decoded dictionary.
        When decoding raises, nothing has been assigned yet. */
    method Load(codec: Codec, s: string) returns (ok: bool)
      modifies this
      ensures ok == codec.decode(s).Some?
      ensures ok ==> attributes == codec.decode(s).value
      ensures !ok ==> attributes == old(attributes)
    {
      var decoded := codec.decode(s);
      if decoded.None? {
        return false;
      }
      attributes := decoded.value;
      return true;
    }

    /** `ToString`: the encoded attribute dictionary; under a faithful codec
        it decodes back to the present state. */
    function ToString(codec: Codec): (s: string)
      reads this
      ensures RoundTrips(codec) ==> codec.decode(s) == Some(attributes)
    {
      codec.encode(attributes)
    }
  }

  /** Saving and loading again leaves every attribute as it was. */
  method SaveThenLoad(config: DriveConfig, codec: Codec) returns (ok: bool)
    requires RoundTrips(codec)
    modifies config
    ensures ok && config.attributes == old(config.attributes)
  {
    var saved := config.ToString(codec);
    ok := config.Load(codec, saved);
  }

  /** The default roller count passes the dialog's `>= 6` rule; the default
      bolt counts lie inside the spinners' 3..16; the default cam bearing is
      wider outside than inside; both chamfer flags are off and every
      component is selected. */
  lemma DefaultsAreSensible()
    ensures Defaults().rollerCount >= 6
    ensures 3 <= Defaults().ringBoltCount <= 16 && 3 <= Defaults().discBoltCount <= 16
    ensures Defaults().camBearingOuterDiameter > Defaults().camBearingInnerDiameter
    ensures !Defaults().chamferRingBoltHoles && !Defaults().chamferDiscBoltHoles
    ensures Defaults().components == AllTags && |AllTags| == 8
  {
  }
}
