/** The race rails: the closed polylines `BuildRing` and `BuildDisc` sample
    along the cycloidal groove (and the reference rail of
    `DrawConstructionSketch`), and the loop that chains their points into
    sketch lines. */
module Race {
  import opened Numerics
  import opened Geometry

  /** A point handed to the CAD kernel (`Point3D.create`). */
  datatype Point = Point(x: real, y: real, z: real)

  /** `CURVE_SUBSAMPLING`: samples per lobe of the ring and disc rails. */
  const CurveSubsampling: int := 32

  /** Samples per lobe of the construction sketch's reference rail. */
  const ConstructionSubsampling: int := 10

  /** The three rails the component samples. */
  datatype Rail = RingRail | DiscRail | ConstructionRail

  /** Everything a rail sampler reads besides the sample index: the rail,
      the roller count and diameter, the median radius, the groove-root
      radius and the race half-height. */
  datatype Sampler = Sampler(
    m: Math,
    rail: Rail,
    rollerCount: int,
    rollerDiameter: real,
    medianRadius: real,
    root: real,
    halfHeight: real)

  /** Lobes of the rail: one more than the rollers on the ring, one fewer on
      the disc. */
  function Lobes(s: Sampler): int
  {
    match s.rail
    case RingRail => s.rollerCount + 1
    case DiscRail => s.rollerCount - 1
    case ConstructionRail => s.rollerCount + 1
  }

  /** `div`: the number of samples the loop takes. */
  function Divisions(s: Sampler): int
  {
    Lobes(s) * (if s.rail == ConstructionRail then ConstructionSubsampling else CurveSubsampling)
  }

  /** `rad = 2 * pi * (i / div)`, the angle of sample `i`. */
  function SampleAngle(m: Math, i: int, div: int): real
    requires div != 0
  {
    2.0 * m.pi * ((i as real) / (div as real))
  }

  /** `radOffset = 2 * pi * 0.25 / lobes`: a quarter of a lobe. */
  function PhaseOffset(s: Sampler): real
    requires Lobes(s) != 0
  {
    2.0 * s.m.pi * 0.25 / (Lobes(s) as real)
  }

  /** The radius `o` the rail reaches at amplitude `amp`: the ring's groove
      root minus the tangent offset, the disc's groove root plus it, and the
      reference rail an eighth of a roller diameter either side of the
      median circle. `None` where `TangentFunctionInverse` raises. For
      amplitudes in [-1, 1] and a positive roller diameter nothing raises
      (the reference rail never does): the ring rail stays inside its
      groove root and the disc rail outside its own, touching the root
      exactly at the amplitude's minimum or for a flat race. */
  function RailRadius(s: Sampler, amp: real): (r: Option<real>)
    requires Valid(s.m)
    ensures s.rail == ConstructionRail ==> r.Some?
    ensures s.rail != ConstructionRail && s.rollerDiameter > 0.0 && s.halfHeight >= 0.0 && -1.0 <= amp <= 1.0 ==>
      && r.Some?
      && (s.rail == RingRail ==> r.value <= s.root)
      && (s.rail == DiscRail ==> s.root <= r.value)
      && (r.value == s.root <==> amp == -1.0 || s.halfHeight == 0.0)
  {
    assert s.rollerDiameter > 0.0 && s.halfHeight >= 0.0 && -1.0 <= amp <= 1.0 ==>
      var t := TangentFunctionInverse(s.m, s.rollerDiameter, ContactDiameter(s.rollerDiameter, amp), s.halfHeight);
      t.Some? && 0.0 <= t.value && (t.value == 0.0 <==> amp == -1.0 || s.halfHeight == 0.0) by {
      if s.rollerDiameter > 0.0 && s.halfHeight >= 0.0 && -1.0 <= amp <= 1.0 {
        SampledOffsetBounds(s.m, s.rollerDiameter, amp, s.halfHeight);
      }
    }
    match s.rail
    case ConstructionRail => Some(s.medianRadius + s.rollerDiameter * amp * 0.125)
    case RingRail =>
      var t := TangentFunctionInverse(s.m, s.rollerDiameter, ContactDiameter(s.rollerDiameter, amp), s.halfHeight);
      if t.None? then None else Some(s.root - t.value)
    case DiscRail =>
      var t := TangentFunctionInverse(s.m, s.rollerDiameter, ContactDiameter(s.rollerDiameter, amp), s.halfHeight);
      if t.None? then None else Some(s.root + t.value)
  }

  /** The centre of the rail's circle is shifted by `roller_diameter / 12`
      on the reference rail only. */
  function CentreY(s: Sampler): real
  {
    if s.rail == ConstructionRail then s.rollerDiameter / 12.0 else 0.0
  }

  /** The ring and disc rails lie at the race half-height, the reference
      rail in the sketch plane. */
  function Height(s: Sampler): real
  {
    if s.rail == ConstructionRail then 0.0 else s.halfHeight
  }

  /** The amplitude at sample angle `rad`: `sin(rad * lobes)`. */
  function Amplitude(s: Sampler, rad: real): real
  {
    s.m.sin(rad * (Lobes(s) as real))
  }

  /** The phase at which sample `rad` is placed: shifted forward on the ring
      and the reference rail, backward on the disc. */
  function Phase(s: Sampler, rad: real): real
    requires Lobes(s) != 0
  {
    if s.rail == DiscRail then rad - PhaseOffset(s) else rad + PhaseOffset(s)
  }

  /** One pass of the sampling loop body: point `i` of `div`. */
  function RailPoint(s: Sampler, i: int): Option<Point>
    requires Valid(s.m) && Lobes(s) != 0 && Divisions(s) != 0
  {
    PointAt(s, SampleAngle(s.m, i, Divisions(s)))
  }

  /** The rail point sampled at angle `rad`. */
  function PointAt(s: Sampler, rad: real): Option<Point>
    requires Valid(s.m) && Lobes(s) != 0
  {
    Place(s, rad, RailRadius(s, Amplitude(s, rad)))
  }

  /** Places the point of angle `rad` at the sampled radius `o`, if any. */
  function Place(s: Sampler, rad: real, o: Option<real>): Option<Point>
    requires Valid(s.m) && Lobes(s) != 0
  {
    if o.None? then None
    else Some(Polar(s.m, Phase(s, rad), o.value, CentreY(s), Height(s)))
  }

  /** `(sin(phase) * o, cos(phase) * o + cy, z)`: the point at angle `phase`
      (measured from the y axis) and radius `o` about `(0, cy)`. */
  function Polar(m: Math, phase: real, o: real, cy: real, z: real): Point
  {
    Point(m.sin(phase) * o, m.cos(phase) * o + cy, z)
  }

  /** The first `k` points of the rail, or `None` if computing one of them
      raises. */
  function Samples(s: Sampler, k: nat): (r: Option<seq<Point>>)
    requires Valid(s.m) && Lobes(s) != 0 && Divisions(s) != 0
    ensures r.Some? ==> |r.value| == k
    ensures r.Some? <==> forall i :: 0 <= i < k ==> RailPoint(s, i).Some?
    ensures r.Some? ==> forall i :: 0 <= i < k ==> r.value[i] == RailPoint(s, i).value
  {
    if k == 0 then Some([])
    else
      var prefix := Samples(s, k - 1);
      var p := RailPoint(s, k - 1);
      if prefix.None? || p.None? then None else Some(prefix.value + [p.value])
  }

  /** What the sampling part of `BuildRing`/`BuildDisc` produces: `None`
      when `radOffset` divides by zero or a sample raises; otherwise `div`
      points (none when `div` is negative, since `range` is then empty). */
  function SampledRail(s: Sampler): (r: Option<seq<Point>>)
    requires Valid(s.m)
    ensures r.Some? <==> Lobes(s) != 0 && forall i :: 0 <= i < Divisions(s) ==> RailPoint(s, i).Some?
    ensures r.Some? ==> |r.value| == if Divisions(s) > 0 then Divisions(s) else 0
    ensures r.Some? ==> forall i :: 0 <= i < |r.value| ==> r.value[i] == RailPoint(s, i).value
  {
    if Lobes(s) == 0 then None
    else if Divisions(s) <= 0 then Some([])
    else Samples(s, Divisions(s))
  }

  /** The sampling loop. */
  method SampleRail(s: Sampler) returns (points: Option<seq<Point>>)
    requires Valid(s.m)
    ensures points == SampledRail(s)
    ensures points.Some? && Divisions(s) > 0 ==> |points.value| == Divisions(s)
  {
    if Lobes(s) == 0 {
      return None;
    }
    var div := Divisions(s);
    if div <= 0 {
      return Some([]);
    }
    var pts: seq<Point> := [];
    var i := 0;
    while i < div
      invariant 0 <= i <= div
      invariant Samples(s, i) == Some(pts)
    {
      var p := RailPoint(s, i);
      if p.None? {
        assert Samples(s, i + 1).None?;
        PrefixFailure(s, i + 1, div);
        return None;
      }
      pts := pts + [p.value];
      i := i + 1;
    }
    return Some(pts);
  }

  /** Once a prefix of the samples raises, so does every longer prefix. */
  lemma {:induction false} PrefixFailure(s: Sampler, k: nat, n: nat)
    requires Valid(s.m) && Lobes(s) != 0 && Divisions(s) != 0
    requires k <= n && Samples(s, k).None?
    ensures Samples(s, n).None?
    decreases n - k
  {
    if k < n {
      PrefixFailure(s, k + 1, n);
    }
  }

  /** The sample angles are evenly spaced over one turn: each lies in
      `[0, 2 * pi)` and they strictly increase, so no two coincide. */
  lemma SampleAnglesInOneTurn(m: Math, i: int, j: int, div: int)
    requires Valid(m) && 0 <= i < j < div
    ensures 0.0 <= SampleAngle(m, i, div) < SampleAngle(m, j, div) < 2.0 * m.pi
  {
    var a, b := (i as real) / (div as real), (j as real) / (div as real);
    assert 0.0 <= a < b < 1.0;
    MulLeftMono(2.0 * m.pi, 0.0, a);
    MulLeftStrict(2.0 * m.pi, a, b);
    MulLeftStrict(2.0 * m.pi, b, 1.0);
  }

  /** Point `p` lies, in its own plane, on the circle of radius `r` about
      `(0, cy)`. */
  predicate OnCircle(p: Point, cy: real, r: real)
  {
    p.x * p.x + (p.y - cy) * (p.y - cy) == r * r
  }

  /** A polar point lies on the circle of its radius about its centre. */
  lemma PolarOnCircle(m: Math, phase: real, o: real, cy: real, z: real)
    requires m.sin(phase) * m.sin(phase) + m.cos(phase) * m.cos(phase) == 1.0
    ensures OnCircle(Polar(m, phase, o, cy, z), cy, o)
  {
    var sn, cs := m.sin(phase), m.cos(phase);
    calc {
      (sn * o) * (sn * o) + (cs * o + cy - cy) * (cs * o + cy - cy);
      (sn * sn + cs * cs) * (o * o);
      o * o;
    }
  }

  /** Every rail point lies at the rail's height, on the circle about the
      rail's centre whose radius is the radius `o` sampled at its angle. */
  lemma RailPointOnCircle(s: Sampler, rad: real)
    requires Valid(s.m) && Lobes(s) != 0
    requires PointAt(s, rad).Some?
    ensures PointAt(s, rad).value.z == Height(s)
    ensures OnCircle(PointAt(s, rad).value, CentreY(s), RailRadius(s, Amplitude(s, rad)).value)
  {
    PlaceOnCircle(s, rad, RailRadius(s, Amplitude(s, rad)));
  }

  lemma PlaceOnCircle(s: Sampler, rad: real, o: Option<real>)
    requires Valid(s.m) && Lobes(s) != 0 && o.Some?
    ensures Place(s, rad, o).value.z == Height(s)
    ensures OnCircle(Place(s, rad, o).value, CentreY(s), o.value)
  {
    PolarOnCircle(s.m, Phase(s, rad), o.value, CentreY(s), Height(s));
  }


  /** For a positive roller diameter and a non-negative half-height the
      ring and disc rails never raise; the ring rail stays between its
      groove root and the root less the largest tangent offset (the offset
      at three-quarter contact), the disc rail between its root and the
      root plus that offset, which is the disc's outer circle. */
  lemma GrooveRailBounds(s: Sampler, amp: real)
    requires Valid(s.m) && s.rail != ConstructionRail
    requires s.rollerDiameter > 0.0 && s.halfHeight >= 0.0 && -1.0 <= amp <= 1.0
    ensures RailRadius(s, amp).Some?
    ensures TangentFunctionInverse(s.m, s.rollerDiameter, 0.75 * s.rollerDiameter, s.halfHeight).Some?
    ensures var top := TangentFunctionInverse(s.m, s.rollerDiameter, 0.75 * s.rollerDiameter, s.halfHeight).value;
      s.rail == RingRail ==> s.root - top <= RailRadius(s, amp).value <= s.root
    ensures var top := TangentFunctionInverse(s.m, s.rollerDiameter, 0.75 * s.rollerDiameter, s.halfHeight).value;
      s.rail == DiscRail ==> s.root <= RailRadius(s, amp).value <= s.root + top
  {
    SampledOffsetBounds(s.m, s.rollerDiameter, amp, s.halfHeight);
  }

  /** Hence every sample of a ring or disc rail with a positive roller
      diameter exists. */
  lemma GrooveRailTotal(s: Sampler, i: int)
    requires Valid(s.m) && s.rail != ConstructionRail && Lobes(s) != 0 && Divisions(s) != 0
    requires s.rollerDiameter > 0.0 && s.halfHeight >= 0.0
    ensures RailPoint(s, i).Some?
  {
    var amp := Amplitude(s, SampleAngle(s.m, i, Divisions(s)));
    GrooveRailBounds(s, amp);
  }

  /** So a ring or disc rail with at least one lobe and a positive roller
      diameter is sampled in full: `div` points, one per sample angle. */
  lemma GrooveRailComplete(s: Sampler)
    requires Valid(s.m) && s.rail != ConstructionRail && Lobes(s) > 0
    requires s.rollerDiameter > 0.0 && s.halfHeight >= 0.0
    ensures SampledRail(s).Some? && |SampledRail(s).value| == Divisions(s)
  {
    forall i | 0 <= i < Divisions(s)
      ensures RailPoint(s, i).Some?
    {
      GrooveRailTotal(s, i);
    }
  }

  /** A positive length scaled by an amplitude in [-1, 1] stays within the
      length either way, and is 0 only for amplitude 0. */
  lemma ScaledUnit(d: real, amp: real)
    requires 0.0 < d && -1.0 <= amp <= 1.0
    ensures -d <= d * amp <= d
    ensures d * amp == 0.0 <==> amp == 0.0
  {
    assert d * amp - (-d) == d * (amp + 1.0);
    assert d - d * amp == d * (1.0 - amp);
    MulLeftMono(d, 0.0, amp + 1.0);
    MulLeftMono(d, 0.0, 1.0 - amp);
  }

  /** The reference rail swings an eighth of a roller diameter inside and
      outside the median circle, touching the median circle where the
      amplitude is 0. */
  lemma ReferenceRailBounds(s: Sampler, amp: real)
    requires Valid(s.m) && s.rail == ConstructionRail
    requires s.rollerDiameter > 0.0 && -1.0 <= amp <= 1.0
    ensures s.medianRadius - s.rollerDiameter * 0.125 <= RailRadius(s, amp).value <= s.medianRadius + s.rollerDiameter * 0.125
    ensures RailRadius(s, amp).value == s.medianRadius <==> amp == 0.0
  {
    assert RailRadius(s, amp).value == s.medianRadius + (s.rollerDiameter * amp) * 0.125;
    ScaledUnit(s.rollerDiameter, amp);
  }

  /** A sketch line, as the indices of its two end points in the rail. */
  datatype Segment = Segment(start: int, end: int)

  /** The chaining loop: the first line joins points 0 and 1, each later
      line starts at the previous line's end point, and a final line
      returns from the last point to the first. With fewer than two points
      `item(1)` yields no point and the kernel rejects the line. */
  method ChainRail(count: int) returns (lines: Option<seq<Segment>>)
    ensures lines == if count >= 2 then Some(ClosedPolyline(count)) else None
  {
    if count < 2 {
      return None;
    }
    var segs := [Segment(0, 1)];
    var firstPoint := segs[0].start;
    var i := 2;
    while i < count
      invariant 2 <= i <= count
      invariant |segs| == i - 1
      invariant forall k :: 0 <= k < i - 1 ==> segs[k] == Segment(k, k + 1)
    {
      segs := segs + [Segment(segs[|segs| - 1].end, i)];
      i := i + 1;
    }
    segs := segs + [Segment(segs[|segs| - 1].end, firstPoint)];
    assert forall k :: 0 <= k < count ==> segs[k] == ClosedPolyline(count)[k];
    assert segs == ClosedPolyline(count);
    return Some(segs);
  }

  /** The polyline `ChainRail` draws over `count` points. */
  function ClosedPolyline(count: nat): seq<Segment>
  {
    seq(count, k => Segment(k, if k + 1 < count then k + 1 else 0))
  }

  /** The point reached after following `steps` lines from point 0. */
  function Walk(lines: seq<Segment>, steps: nat): int
    decreases steps
  {
    if steps == 0 then 0
    else
      var at := Walk(lines, steps - 1);
      if 0 <= at < |lines| && lines[at].start == at then lines[at].end else -1
  }

  /** The polyline is one closed cycle through all points: walking it from
      point 0 visits the points in order, each exactly once, and arrives
      back at point 0 after `count` lines. */
  lemma {:induction false} ClosedPolylineIsCycle(count: nat, steps: nat)
    requires count >= 2 && steps <= count
    ensures steps < count ==> Walk(ClosedPolyline(count), steps) == steps
    ensures steps == count ==> Walk(ClosedPolyline(count), steps) == 0
  {
    if steps > 0 {
      ClosedPolylineIsCycle(count, steps - 1);
    }
  }
}
