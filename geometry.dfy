/** The closed-form geometry of `CycloidalComponent`: the median (roller
    orbit) diameter, the ring's outer radius, the groove depth, the tangent
    relation between a ball and its race, and the radii `__init__` derives
    from a configuration. */
module Geometry {
  import opened Numerics
  import opened Printer
  import opened DriveConfigs

  /** `RACE_HEIGHT_RAD_PLUS`: how far the race reaches beyond the roller radius. */
  const RaceHeightRadPlus: real := 0.01

  /** `(1 + roller_gap_factor) * roller_count * 2.0`, the divisor of pi in
      `CalculateMedianDiameter`. */
  function PitchDivisor(rollerCount: int, gapFactor: real): real
  {
    (1.0 + gapFactor) * (rollerCount as real) * 2.0
  }

  /** `CalculateMedianDiameter`: the diameter of the circle the roller centres
      lie on. `None` where Python divides by zero. On success the chord of
      the median circle over the angle `2 * theta`, that is
      `diameter * sin(theta)`, is the roller radius. */
  function MedianDiameter(m: Math, rollerDiameter: real, rollerCount: int, gapFactor: real): (r: Option<real>)
    ensures r.Some? <==> PitchDivisor(rollerCount, gapFactor) != 0.0
                         && m.sin(m.pi / PitchDivisor(rollerCount, gapFactor)) != 0.0
    ensures r.Some? ==> rollerCount != 0 && gapFactor != -1.0
    ensures r.Some? ==> r.value * m.sin(m.pi / PitchDivisor(rollerCount, gapFactor)) == rollerDiameter / 2.0
    ensures r.Some? && rollerDiameter > 0.0 && m.sin(m.pi / PitchDivisor(rollerCount, gapFactor)) > 0.0
            ==> r.value > 0.0
  {
    var q := PitchDivisor(rollerCount, gapFactor);
    if q == 0.0 then None
    else
      var s := 2.0 * m.sin(m.pi / q);
      if s == 0.0 then None else Some(rollerDiameter / s)
  }

  /** `CalculateOuterRadius`: the ring's rim. For non-negative diameters it
      lies at least a roller diameter outside the median circle, and the
      inner edge of a bolt hole on the bolt circle (a quarter bolt diameter
      inside the rim) clears a roller centred on the median circle. */
  function OuterRadius(medianRadius: real, rollerDiameter: real, ringBoltDiameter: real): (r: real)
    ensures 0.0 <= rollerDiameter && 0.0 <= ringBoltDiameter ==>
      && medianRadius + rollerDiameter <= r
      && medianRadius + rollerDiameter * 0.5 <= r - ringBoltDiameter * 0.25 - ringBoltDiameter * 0.5
  {
    medianRadius + rollerDiameter + ringBoltDiameter * 1.5
  }

  /** `GrooveRootToBallCenter`: the distance from a groove's root to the
      centre of a ball seated in it at three-quarter contact. `None` for a
      zero diameter, where Python divides by zero; otherwise two thirds of
      the diameter. */
  function GrooveRootToBallCenter(diameter: real): (r: Option<real>)
    ensures r.Some? <==> diameter != 0.0
    ensures r.Some? ==> r.value == 2.0 * diameter / 3.0
  {
    var q := 2.0 * (diameter * 0.75);
    if q == 0.0 then None else Some((diameter * diameter) / q)
  }

  /** `contact / sqrt(planet^2 - contact^2)`, the slope of the tangent
      relation between a ball of diameter `planet` and its race. */
  function Slope(m: Math, planet: real, contact: real): real
    requires Valid(m) && contact * contact < planet * planet
  {
    SqrtPositive(m, planet * planet - contact * contact);
    contact / m.sqrt(planet * planet - contact * contact)
  }

  /** `TangentFunction`: height reached at offset `x` along the tangent of a
      ball of diameter `planet` that touches with diameter `contact`.
      `None` where Python raises: `math.sqrt` of a negative number, or a
      division by `sqrt(0) = 0`. */
  function TangentFunction(m: Math, planet: real, contact: real, x: real): (r: Option<real>)
    requires Valid(m)
    ensures r.Some? <==> contact * contact < planet * planet
  {
    var q := planet * planet - contact * contact;
    if q <= 0.0 then None
    else
      SqrtPositive(m, q);
      Some(Slope(m, planet, contact) * x)
  }

  /** `TangentFunctionInverse`, with its two guarded limiting cases: a fully
      seated ball (contact equals diameter) has offset 0, a ball touching at
      a point (contact 0) offset half its diameter. Otherwise the offset
      solving the tangent relation for height `y`; `None` where Python's
      `sqrt` raises or divides by zero. */
  function TangentFunctionInverse(m: Math, planet: real, contact: real, y: real): (r: Option<real>)
    requires Valid(m)
    ensures contact == planet ==> r == Some(0.0)
    ensures contact != planet && contact == 0.0 ==> r == Some(planet / 2.0)
    ensures r.None? <==> contact != planet && contact != 0.0 && planet * planet <= contact * contact
    ensures 0.0 < contact < planet && 0.0 < y ==> r.Some? && r.value > 0.0
  {
    if contact == planet then Some(0.0)
    else if contact == 0.0 then Some(planet * 0.5)
    else
      var q := planet * planet - contact * contact;
      if q <= 0.0 then None
      else
        SqrtPositive(m, q);
        Some(y / Slope(m, planet, contact))
  }

  /** `k * (v / k) == v` and `(k * v) / k == v` for a non-zero `k`. */
  lemma CancelFactor(k: real, v: real)
    requires k != 0.0
    ensures k * (v / k) == v && (k * v) / k == v
  {
  }

  /** In the general branch the slope is non-zero and both functions use it. */
  lemma GeneralBranch(m: Math, planet: real, contact: real, v: real)
    requires Valid(m)
    requires contact != 0.0 && contact * contact < planet * planet
    ensures Slope(m, planet, contact) != 0.0
    ensures TangentFunction(m, planet, contact, v) == Some(Slope(m, planet, contact) * v)
    ensures contact != planet ==> TangentFunctionInverse(m, planet, contact, v) == Some(v / Slope(m, planet, contact))
  {
    SqrtPositive(m, planet * planet - contact * contact);
    var r := TangentFunction(m, planet, contact, v);
    assert r.value == Slope(m, planet, contact) * v;
    if contact != planet {
      var t := TangentFunctionInverse(m, planet, contact, v);
      assert t.value == v / Slope(m, planet, contact);
    }
  }

  /** Applying the tangent relation to the offset the inverse computes gives
      back the height, wherever the general branch applies. */
  lemma InverseThenTangent(m: Math, planet: real, contact: real, v: real)
    requires Valid(m)
    requires contact != 0.0 && contact * contact < planet * planet
    ensures TangentFunctionInverse(m, planet, contact, v).Some?
    ensures TangentFunction(m, planet, contact, TangentFunctionInverse(m, planet, contact, v).value) == Some(v)
  {
    GeneralBranch(m, planet, contact, v);
    var u := v / Slope(m, planet, contact);
    assert TangentFunctionInverse(m, planet, contact, v) == Some(u);
    GeneralBranch(m, planet, contact, u);
    CancelFactor(Slope(m, planet, contact), v);
    assert Slope(m, planet, contact) * u == v;
  }

  /** The inverse undoes the tangent relation, wherever the general branch
      applies. */
  lemma TangentThenInverse(m: Math, planet: real, contact: real, v: real)
    requires Valid(m)
    requires contact != 0.0 && contact * contact < planet * planet
    ensures TangentFunction(m, planet, contact, v).Some?
    ensures TangentFunctionInverse(m, planet, contact, TangentFunction(m, planet, contact, v).value) == Some(v)
  {
    GeneralBranch(m, planet, contact, v);
    var u := Slope(m, planet, contact) * v;
    assert TangentFunction(m, planet, contact, v) == Some(u);
    GeneralBranch(m, planet, contact, u);
    CancelFactor(Slope(m, planet, contact), v);
    assert u / Slope(m, planet, contact) == v;
  }

  /** The contact diameter the race samplers derive from a normalised
      amplitude (`BuildRing`, `BuildDisc`). For a positive roller diameter
      and amplitudes in [-1, 1] it lies between three quarters of the
      roller diameter and the whole of it. */
  function ContactDiameter(rollerDiameter: real, amp: real): (c: real)
    ensures rollerDiameter > 0.0 && -1.0 <= amp <= 1.0 ==> 0.75 * rollerDiameter <= c <= rollerDiameter
  {
    var t := amp + 1.0;
    assert rollerDiameter > 0.0 && 0.0 <= t <= 2.0 ==> 0.0 <= rollerDiameter * t <= rollerDiameter * 2.0 by {
      if rollerDiameter > 0.0 && 0.0 <= t <= 2.0 {
        MulLeftMono(rollerDiameter, 0.0, t);
        MulLeftMono(rollerDiameter, t, 2.0);
      }
    }
    rollerDiameter * (1.0 - (0.25 * (t * 0.5)))
  }

  /** For amplitudes in [-1, 1] the contact diameter blends linearly from the
      full roller diameter (amplitude -1, the only fully seated point) down
      to three quarters of it (amplitude 1); it is never 0, so the sampler
      never takes the point-contact branch. */
  lemma ContactDiameterBounds(rollerDiameter: real, amp: real)
    requires rollerDiameter > 0.0 && -1.0 <= amp <= 1.0
    ensures var c := ContactDiameter(rollerDiameter, amp);
      && 0.75 * rollerDiameter <= c <= rollerDiameter
      && (c == rollerDiameter <==> amp == -1.0)
      && (c == 0.75 * rollerDiameter <==> amp == 1.0)
  {
    var d, t := rollerDiameter, amp + 1.0;
    assert ContactDiameter(d, amp) == d - d * t * 0.125;
    MulLeftMono(d, 0.0, t);
    MulLeftMono(d, t, 2.0);
    if t != 0.0 {
      MulLeftStrict(d, 0.0, t);
    }
    if t != 2.0 {
      MulLeftStrict(d, t, 2.0);
    }
  }

  /** `0 < a < b` implies `a * a < b * b`. */
  lemma SquareStrict(a: real, b: real)
    requires 0.0 < a < b
    ensures a * a < b * b
  {
    MulLeftStrict(a, a, b);
    MulLeftStrict(b, a, b);
  }

  /** `0 <= a <= b` implies `a * a <= b * b`. */
  lemma SquareMono(a: real, b: real)
    requires 0.0 <= a <= b
    ensures a * a <= b * b
  {
    MulLeftMono(a, a, b);
    MulLeftMono(b, a, b);
  }

  /** `height * rise / contact`: the general-branch offset of the inverse,
      written with the square root `rise` in the numerator. */
  function Offset(height: real, rise: real, contact: real): real
    requires contact != 0.0
  {
    height * rise / contact
  }

  /** `h / k == h * s / c` for a slope `k == c / s`: the rewriting of the
      inverse's quotient. */
  lemma InverseQuotient(h: real, k: real, c: real, s: real)
    requires c != 0.0 && s != 0.0 && k == c / s
    ensures h / k == Offset(h, s, c)
  {
  }

  /** `sqrt(planet^2 - contact^2)`: the square root in the tangent relation. */
  function Rise(m: Math, planet: real, contact: real): real
  {
    m.sqrt(planet * planet - contact * contact)
  }

  /** Between a least contact diameter and the full ball, the rise is
      positive and largest at the least contact. */
  lemma RiseBounds(m: Math, planet: real, least: real, contact: real)
    requires Valid(m) && 0.0 < least <= contact < planet
    ensures 0.0 < Rise(m, planet, contact) <= Rise(m, planet, least)
  {
    SquareMono(least, contact);
    SquareStrict(contact, planet);
    SqrtPositive(m, planet * planet - contact * contact);
    SqrtMonotone(m, planet * planet - contact * contact, planet * planet - least * least);
  }

  /** The general branch of the inverse for a ball seated between point
      and full contact: the offset is `y * sqrt(planet^2 - contact^2) / contact`. */
  lemma InverseValue(m: Math, planet: real, contact: real, y: real)
    requires Valid(m) && 0.0 < contact < planet
    ensures TangentFunctionInverse(m, planet, contact, y) == Some(Offset(y, Rise(m, planet, contact), contact))
  {
    SquareStrict(contact, planet);
    GeneralBranch(m, planet, contact, y);
    assert y / Slope(m, planet, contact) == Offset(y, Rise(m, planet, contact), contact) by {
      RiseBounds(m, planet, contact, contact);
      InverseQuotient(y, Slope(m, planet, contact), contact, Rise(m, planet, contact));
    }
  }

  /** For a contact diameter between a least contact diameter and the full
      ball, the offset the inverse computes for a non-negative height exists,
      is non-negative, is largest at the least contact, and is 0 exactly at
      full contact or zero height. */
  lemma OffsetBetween(m: Math, planet: real, least: real, contact: real, h: real)
    requires Valid(m) && 0.0 < least <= contact <= planet && least < planet && 0.0 <= h
    ensures TangentFunctionInverse(m, planet, contact, h).Some?
    ensures TangentFunctionInverse(m, planet, least, h).Some?
    ensures 0.0 <= TangentFunctionInverse(m, planet, contact, h).value
                <= TangentFunctionInverse(m, planet, least, h).value
    ensures TangentFunctionInverse(m, planet, contact, h).value == 0.0 <==> contact == planet || h == 0.0
  {
    InverseValue(m, planet, least, h);
    RiseBounds(m, planet, least, least);
    OffsetOrder(h, Rise(m, planet, least), Rise(m, planet, least), least, least);
    if contact != planet {
      InverseValue(m, planet, contact, h);
      RiseBounds(m, planet, least, contact);
      OffsetOrder(h, Rise(m, planet, contact), Rise(m, planet, least), contact, least);
    }
  }

  /** The radial offset of a sampled race point from the groove root never
      fails, is never negative, vanishes exactly where the ball is fully
      seated (amplitude -1) or the height is 0, and is largest at
      three-quarter contact. */
  lemma SampledOffsetBounds(m: Math, rollerDiameter: real, amp: real, height: real)
    requires Valid(m)
    requires rollerDiameter > 0.0 && -1.0 <= amp <= 1.0 && height >= 0.0
    ensures TangentFunctionInverse(m, rollerDiameter, ContactDiameter(rollerDiameter, amp), height).Some?
    ensures TangentFunctionInverse(m, rollerDiameter, 0.75 * rollerDiameter, height).Some?
    ensures 0.0 <= TangentFunctionInverse(m, rollerDiameter, ContactDiameter(rollerDiameter, amp), height).value
                <= TangentFunctionInverse(m, rollerDiameter, 0.75 * rollerDiameter, height).value
    ensures TangentFunctionInverse(m, rollerDiameter, ContactDiameter(rollerDiameter, amp), height).value == 0.0
            <==> amp == -1.0 || height == 0.0
  {
    ContactDiameterBounds(rollerDiameter, amp);
    OffsetBetween(m, rollerDiameter, 0.75 * rollerDiameter, ContactDiameter(rollerDiameter, amp), height);
  }

  /** `Offset(h, s, c) <= Offset(h, sMax, cMin)` for the non-negative quantities of
      `SampledOffsetBounds`, with equality to 0 only for `h == 0`. */
  lemma OffsetOrder(h: real, s: real, sMax: real, c: real, cMin: real)
    requires 0.0 <= h && 0.0 < s <= sMax && 0.0 < cMin <= c
    ensures 0.0 <= Offset(h, s, c) <= Offset(h, sMax, cMin)
    ensures Offset(h, s, c) == 0.0 <==> h == 0.0
  {
    assert s / c <= sMax / cMin by {
      QuotientMono(s, sMax, c, cMin);
    }
    assert 0.0 < s / c;
    assert Offset(h, s, c) == h * (s / c);
    assert Offset(h, sMax, cMin) == h * (sMax / cMin);
    MulLeftMono(h, 0.0, s / c);
    MulLeftMono(h, s / c, sMax / cMin);
    if h > 0.0 {
      MulLeftStrict(h, 0.0, s / c);
    }
  }

  /** A quotient grows with its numerator and shrinks with its positive
      denominator. */
  lemma QuotientMono(s: real, sMax: real, c: real, cMin: real)
    requires 0.0 < s <= sMax && 0.0 < cMin <= c
    ensures s / c <= sMax / cMin
  {
    assert s / c <= sMax / c;
    assert sMax / c <= sMax / cMin;
  }

  /** The radii `CycloidalComponent.__init__` derives from a configuration. */
  datatype Geometry = Geometry(
    medianDia: real,
    medianRadius: real,
    rollerRad: real,
    thickness: real,
    ringOuterRadius: real,
    ringBoltCircleRadius: real,
    discBoltCircleRadius: real,
    slotRadius: real,
    cageSlotHeight: real)

  /** The derived fields, in `__init__`'s order; `None` exactly where the
      median diameter raises, which aborts the constructor. The radii are
      halves of their diameters; the ring is as thick as a roller plus a
      cage slot height and the race margin on either side, so that with a
      positive layer height the race fits inside it; the bolt circle sits a
      quarter bolt diameter inside the rim. */
  function Derive(m: Math, c: Config, p: PrinterConfig): (r: Option<Geometry>)
    ensures r.Some? <==> MedianDiameter(m, c.rollerDiameter, c.rollerCount, c.rollerSpacing).Some?
    ensures r.Some? ==>
      && r.value.medianDia == MedianDiameter(m, c.rollerDiameter, c.rollerCount, c.rollerSpacing).value
      && r.value.medianDia == 2.0 * r.value.medianRadius
      && c.rollerDiameter == 2.0 * r.value.rollerRad
      && r.value.thickness == c.rollerDiameter + 2.0 * (r.value.cageSlotHeight + RaceHeightRadPlus)
      && (p.layerHeight > 0.0 ==> HalfRaceHeight(r.value) < r.value.thickness * 0.5)
      && r.value.ringOuterRadius - r.value.ringBoltCircleRadius == c.ringBoltDiameter * 0.25
  {
    var median := MedianDiameter(m, c.rollerDiameter, c.rollerCount, c.rollerSpacing);
    if median.None? then None
    else
      var medianRadius := median.value * 0.5;
      var rollerRad := c.rollerDiameter * 0.5;
      var ringOuterRadius := OuterRadius(medianRadius, c.rollerDiameter, c.ringBoltDiameter);
      Some(Geometry(
        median.value,
        medianRadius,
        rollerRad,
        c.rollerDiameter + 2.0 * p.LToCm(5) + 2.0 * RaceHeightRadPlus,
        ringOuterRadius,
        ringOuterRadius - c.ringBoltDiameter * 0.25,
        medianRadius - (rollerRad * 3.0) - c.discBoltDiameter * 0.5,
        medianRadius + (rollerRad * 2.25),
        p.LToCm(5)))
  }

  /** With positive roller and ring-bolt diameters the cage slot lies outside
      the median circle and the ring bolt circle inside the outer rim; the
      slot stays inside the bolt circle exactly when the bolt diameter
      exceeds a tenth of the roller diameter.
      The outer radius exceeds the median radius by the roller diameter and
      one and a half bolt diameters, and the bolt circle sits a quarter bolt
      diameter inside it. */
  lemma RingRadiiOrdering(m: Math, c: Config, p: PrinterConfig)
    requires Derive(m, c, p).Some?
    requires c.rollerDiameter > 0.0 && c.ringBoltDiameter > 0.0
    ensures var g := Derive(m, c, p).value;
      && g.ringOuterRadius == g.medianRadius + c.rollerDiameter + 1.5 * c.ringBoltDiameter
      && g.ringBoltCircleRadius == g.ringOuterRadius - 0.25 * c.ringBoltDiameter
      && g.slotRadius == g.medianRadius + 2.25 * g.rollerRad
      && g.medianRadius < g.slotRadius
      && g.ringBoltCircleRadius < g.ringOuterRadius
      && (g.slotRadius < g.ringBoltCircleRadius <==> c.rollerDiameter < 10.0 * c.ringBoltDiameter)
  {
  }

  /** The disc bolt holes lie wholly inside the disc's slot circle
      (`median_radius - 2.25 * roller_rad`). */
  lemma DiscBoltHolesInsideSlot(m: Math, c: Config, p: PrinterConfig)
    requires Derive(m, c, p).Some?
    requires c.rollerDiameter > 0.0
    ensures var g := Derive(m, c, p).value;
      g.discBoltCircleRadius + c.discBoltDiameter * 0.5 < g.medianRadius - g.rollerRad * 2.25
  {
  }

  /** Sine is positive strictly between 0 and pi. `Valid` does not assume
      it; the lemma that needs it says so. */
  ghost predicate SinePositive(m: Math)
  {
    forall x :: 0.0 < x < m.pi ==> m.sin(x) > 0.0
  }

  /** With at least one roller and a non-negative gap factor the divisor of
      pi is at least 2, so the angle lies in (0, pi); where the sine is
      positive there, the median diameter exists and is positive for a
      positive roller diameter. */
  lemma MedianDiameterPositive(m: Math, rollerDiameter: real, rollerCount: int, gapFactor: real)
    requires Valid(m) && SinePositive(m)
    requires rollerCount >= 1 && gapFactor >= 0.0 && rollerDiameter > 0.0
    ensures MedianDiameter(m, rollerDiameter, rollerCount, gapFactor).Some?
    ensures MedianDiameter(m, rollerDiameter, rollerCount, gapFactor).value > 0.0
  {
    var q := PitchDivisor(rollerCount, gapFactor);
    MulLeftMono(1.0 + gapFactor, 1.0, rollerCount as real);
    assert q >= 2.0;
    var angle := m.pi / q;
    assert angle * q == m.pi;
    MulLeftStrict(angle, 1.0, q);
    assert 0.0 < angle < m.pi;
  }

  /** The race half-height: a roller radius plus `RACE_HEIGHT_RAD_PLUS`. */
  function HalfRaceHeight(g: Geometry): real
  {
    g.rollerRad + RaceHeightRadPlus
  }

  /** `BuildRing`'s groove-root radius, half of `median_dia + g + roller_rad`.
      It raises exactly for a zero roller diameter; for the derived roller
      radius it lies `7/12` of a roller diameter outside the median circle. */
  function RingGrooveRoot(g: Geometry, rollerDiameter: real): (r: Option<real>)
    ensures r.Some? <==> rollerDiameter != 0.0
    ensures r.Some? && g.rollerRad == rollerDiameter * 0.5 ==>
      r.value == g.medianDia * 0.5 + 7.0 * rollerDiameter / 12.0
  {
    var depth := GrooveRootToBallCenter(rollerDiameter);
    if depth.None? then None else Some((g.medianDia + depth.value + g.rollerRad) * 0.5)
  }

  /** `BuildDisc`'s groove-root radius, half of `median_dia - g - roller_rad`.
      It raises exactly for a zero roller diameter; for the derived roller
      radius it lies `7/12` of a roller diameter inside the median circle. */
  function DiscGrooveRoot(g: Geometry, rollerDiameter: real): (r: Option<real>)
    ensures r.Some? <==> rollerDiameter != 0.0
    ensures r.Some? && g.rollerRad == rollerDiameter * 0.5 ==>
      r.value == g.medianDia * 0.5 - 7.0 * rollerDiameter / 12.0
  {
    var depth := GrooveRootToBallCenter(rollerDiameter);
    if depth.None? then None else Some((g.medianDia - depth.value - g.rollerRad) * 0.5)
  }

  /** The two groove roots are placed symmetrically about the median circle,
      ring outside and disc inside, `7/12` of a roller diameter away from it
      each, so that they are `g + roller_rad` apart. */
  lemma GrooveRootsStraddleMedian(m: Math, c: Config, p: PrinterConfig)
    requires Derive(m, c, p).Some? && c.rollerDiameter != 0.0
    ensures var g := Derive(m, c, p).value;
      && RingGrooveRoot(g, c.rollerDiameter).Some? && DiscGrooveRoot(g, c.rollerDiameter).Some?
      && RingGrooveRoot(g, c.rollerDiameter).value - DiscGrooveRoot(g, c.rollerDiameter).value
         == GrooveRootToBallCenter(c.rollerDiameter).value + g.rollerRad
      && RingGrooveRoot(g, c.rollerDiameter).value == g.medianRadius + 7.0 * c.rollerDiameter / 12.0
      && DiscGrooveRoot(g, c.rollerDiameter).value == g.medianRadius - 7.0 * c.rollerDiameter / 12.0
  {
  }
}
