/** The stage sequencer of `CycloidalComponent.__init__`: the building stages,
    each one the list of kernel calls its method makes, the attributes the
    stages hand to each other, the per-stage `try` blocks that swallow and
    report an exception, and the fixed order in which `__init__` runs them
    around the bodies-folder light bulb. */
module Stages {
  import opened Numerics
  import opened Printer
  import opened DriveConfigs
  import opened Geometry
  import opened Race

  /** The stages `__init__` calls, named after their methods. */
  datatype Stage =
    | DrawConstructionSketch
    | CreateSplitPlanes
    | CreateRollerSketch
    | BuildRing
    | BuildDisc
    | CreateBearingSeat
    | BuildRollers
    | BuildRollerCage
    | BuildCam
    | BuildBrace
    | BuildOutputDisc

  /** The helpers a stage calls from inside its own `try` block; each has a
      `try` block of its own. */
  datatype SubStage = CreateRingHoles | CreateRingKeyFeatures | CreateDiscHoles

  /** Attributes of the component object that one stage assigns and a later
      stage reads: `circle_center`, `roller_sketch`, `roller_mirror_line`,
      `cycloid_cut_plane` and `output_cut_plane`. */
  datatype Ref = CircleCenter | RollerSketch | RollerMirrorLine | CycloidCutPlane | OutputCutPlane

  /** The plane a sketch is drawn on. */
  datatype Plane = XYPlane | YZPlane | OnPlane(ref: Ref)

  datatype Operation = JoinOp | CutOp | NewBodyOp

  datatype Direction = PositiveExtent | NegativeExtent

  /** The axis of a circular pattern: the construction line through the
      rollers' circle centre, or the component's z axis. */
  datatype Axis = CircleCenterAxis | ZAxis

  /** A call into the CAD kernel, with the values the component passes. */
  datatype Event =
    | ComponentCreated(rollerCount: int, rollerSpacing: real)
    | SketchCreated(name: string, plane: Plane)
    | CircleAdded(sketch: string, centre: Point, radius: real)
    | LineAdded(sketch: string, start: Point, finish: Point)
    | RailDrawn(sketch: string, points: seq<Point>, lines: seq<Segment>)
    | PlaneCreated(name: string, offset: real)
    | SymmetricExtruded(extent: real, op: Operation)
    | OneSideExtruded(begin: real, extent: real, direction: Direction, op: Operation)
    | Lofted(op: Operation)
    | Mirrored
    | Combined
    | Revolved(angle: real)
    | Patterned(count: int, axis: Axis)
    | Chamfered(width: real)
    | Filleted(radius: real)
    | Split(at: Ref)
    | BodyNamed(name: string)
    | ComponentAdded(name: string)
    | BraceBuilt(boltCircleRadius: real, boltDiameter: real, shaftDiameter: real, boltCount: int)
    | Reported(message: string)

  /** One statement of a `try` block: a kernel call, the assignment of an
      attribute, a read of one (which raises while it is unassigned or
      `None`), or an arithmetic error (a division by zero or a square root
      of a negative number). */
  datatype Op = Call(event: Event) | Bind(ref: Ref) | Need(ref: Ref) | Raise

  /** A statement of a stage: an operation, or a call of a helper stage. */
  datatype Step = Do(op: Op) | Nested(sub: SubStage)

  /** The kernel's failures: the index of the kernel call that raises in
      each stage's and each helper's `try` block, where one does. */
  datatype Kernel = Kernel(rejects: map<Stage, nat>, rejectsSub: map<SubStage, nat>)

  /** Everything a stage's statements are computed from: the math library,
      the configuration, the printer and the derived radii. */
  datatype Ctx = Ctx(m: Math, cfg: Config, printer: PrinterConfig, g: Geometry)

  /** The statements of every stage and every helper under one context. */
  datatype Program = Program(body: Stage -> seq<Step>, sub: SubStage -> seq<Op>)

  /** How the stages run: their statements, the kernel, whether a user
      interface is present to report to, and the selected components. */
  datatype Env = Env(prog: Program, kernel: Kernel, ui: bool, components: set<string>)

  /** The outcome of one top-level stage: its name, the light bulb while it
      ran, and whether it finished without raising. */
  datatype Run = Run(stage: Stage, lightBulbOn: bool, ok: bool)

  datatype SubRun = SubRun(sub: SubStage, ok: bool)

  /** What the component has become: the kernel calls made so far, the
      attributes assigned, the bodies-folder light bulb, and the results of
      the stages and helpers run so far. */
  datatype BuildState = BuildState(
    trace: seq<Event>,
    bound: set<Ref>,
    lightBulbOn: bool,
    runs: seq<Run>,
    subRuns: seq<SubRun>)

  datatype Outcome = Outcome(state: BuildState, ok: bool)

  /** The construction either raises while deriving the radii (the
      exception leaves `__init__`) or runs every scheduled stage. */
  datatype Construction = Aborted(state: BuildState) | Constructed(state: BuildState)

  const Origin := Point(0.0, 0.0, 0.0)

  /** The message box text each `except` clause shows, before the error. */
  function Message(s: Stage): string
  {
    match s
    case DrawConstructionSketch => "drawConstructionSketch Failed : "
    case CreateSplitPlanes => "createSpPlane Failed : "
    case CreateRollerSketch => "Create Roller Sketch Failed : "
    case BuildRing => "buildRing Failed : "
    case BuildDisc => "BuildDisc Failed : "
    case CreateBearingSeat => "Bearing Seat Failed : "
    case BuildRollers => "buildRoller Failed : "
    case BuildRollerCage => "Build Cage Failed : "
    case BuildCam => "Cam Failed : "
    case BuildBrace => "Brace Failed : "
    case BuildOutputDisc => "OutputDisc Failed : "
  }

  function SubMessage(s: SubStage): string
  {
    match s
    case CreateRingHoles => "Ring Holes Failed : "
    case CreateRingKeyFeatures => "Ring Key Features Failed : "
    case CreateDiscHoles => "Disc Holes Failed : "
  }

  function Rejects(k: Kernel, s: Stage): Option<nat>
  {
    if s in k.rejects then Some(k.rejects[s]) else None
  }

  function RejectsSub(k: Kernel, s: SubStage): Option<nat>
  {
    if s in k.rejectsSub then Some(k.rejectsSub[s]) else None
  }

  /** Kernel calls an operation makes. */
  function Cost(op: Op): nat
  {
    if op.Call? then 1 else 0
  }

  /** The kernel calls a block lists, in order. */
  function Events(ops: seq<Op>): (r: seq<Event>)
    ensures |r| <= |ops|
  {
    if ops == [] then []
    else (if ops[0].Call? then [ops[0].event] else []) + Events(ops[1..])
  }

  /** One operation, when call number `calls` of its block is the one
      `reject` names the kernel raises; `None` when the operation raises. */
  function Apply(st: BuildState, op: Op, reject: Option<nat>, calls: nat): (r: Option<BuildState>)
    ensures r.Some? ==> r.value.runs == st.runs && r.value.subRuns == st.subRuns
    ensures r.Some? ==> r.value.lightBulbOn == st.lightBulbOn && st.bound <= r.value.bound
    ensures r.Some? ==> r.value.trace == st.trace + (if op.Call? then [op.event] else [])
    ensures r.None? <==> op.Raise? || (op.Need? && op.ref !in st.bound) || (op.Call? && reject == Some(calls))
  {
    match op
    case Call(e) => if reject == Some(calls) then None else Some(st.(trace := st.trace + [e]))
    case Bind(x) => Some(st.(bound := st.bound + {x}))
    case Need(x) => if x in st.bound then Some(st) else None
    case Raise => None
  }

  /** A `try` block without helper calls: runs the operations until one
      raises. What it adds to the trace is a prefix of the calls it lists,
      and all of them when it finishes. */
  function ExecOps(st: BuildState, ops: seq<Op>, reject: Option<nat>, calls: nat): (r: Outcome)
    ensures r.state.runs == st.runs && r.state.subRuns == st.subRuns && r.state.lightBulbOn == st.lightBulbOn
    ensures st.trace <= r.state.trace && r.state.trace[|st.trace|..] <= Events(ops)
    ensures r.ok ==> r.state.trace == st.trace + Events(ops)
    decreases |ops|
  {
    if ops == [] then Outcome(st, true)
    else
      var next := Apply(st, ops[0], reject, calls);
      if next.None? then Outcome(st, false)
      else
        var r := ExecOps(next.value, ops[1..], reject, calls + Cost(ops[0]));
        var made := if ops[0].Call? then [ops[0].event] else [];
        assert Events(ops) == made + Events(ops[1..]);
        PrefixStep(st.trace, made, r.state.trace, Events(ops[1..]));
        r
  }

  /** Extending a trace by `made` and then by a prefix of `rest` extends it
      by a prefix of `made + rest`. */
  lemma PrefixStep<T>(t: seq<T>, made: seq<T>, u: seq<T>, rest: seq<T>)
    requires t + made <= u && u[|t + made|..] <= rest
    ensures t <= u && u[|t|..] <= made + rest
    ensures u == t + made + rest ==> u == t + (made + rest)
  {
    assert u[|t|..] == made + u[|t + made|..];
  }

  /** A block whose kernel never rejects, which never divides by zero and
      which reads only assigned attributes finishes. */
  lemma {:induction false} HealthyBlockFinishes(st: BuildState, ops: seq<Op>, reject: Option<nat>, calls: nat)
    requires reject.None? || reject.value < calls
    requires forall i :: 0 <= i < |ops| ==> !ops[i].Raise?
    requires forall i :: 0 <= i < |ops| && ops[i].Need? ==> ops[i].ref in st.bound
    ensures ExecOps(st, ops, reject, calls).ok
    decreases |ops|
  {
    if ops != [] {
      var next := Apply(st, ops[0], reject, calls);
      assert next.Some?;
      HealthyBlockFinishes(next.value, ops[1..], reject, calls + Cost(ops[0]));
    }
  }

  /** Shows a helper's message when it failed and a user interface exists. */
  function Report(ui: bool, st: BuildState, ok: bool, message: string): (r: BuildState)
    ensures r.runs == st.runs && r.subRuns == st.subRuns && r.lightBulbOn == st.lightBulbOn && r.bound == st.bound
    ensures r.trace == st.trace + (if !ok && ui then [Reported(message)] else [])
  {
    if !ok && ui then st.(trace := st.trace + [Reported(message)]) else st
  }

  /** A helper call: its own `try` block, whose exception is reported and
      swallowed, so that the calling stage carries on. */
  function RunSub(env: Env, st: BuildState, sub: SubStage): (r: BuildState)
    ensures r.runs == st.runs && r.lightBulbOn == st.lightBulbOn && st.trace <= r.trace
    ensures |r.subRuns| == |st.subRuns| + 1 && r.subRuns[..|st.subRuns|] == st.subRuns
    ensures r.subRuns[|st.subRuns|].sub == sub
  {
    var o := ExecOps(st, env.prog.sub(sub), RejectsSub(env.kernel, sub), 0);
    Report(env.ui, o.state.(subRuns := o.state.subRuns + [SubRun(sub, o.ok)]), o.ok, SubMessage(sub))
  }

  /** A stage's `try` block: runs its statements until one raises. */
  function ExecSteps(env: Env, st: BuildState, steps: seq<Step>, reject: Option<nat>, calls: nat): (r: Outcome)
    ensures r.state.runs == st.runs && r.state.lightBulbOn == st.lightBulbOn
    ensures st.trace <= r.state.trace
    decreases |steps|
  {
    if steps == [] then Outcome(st, true)
    else
      match steps[0]
      case Do(op) =>
        var next := Apply(st, op, reject, calls);
        if next.None? then Outcome(st, false)
        else ExecSteps(env, next.value, steps[1..], reject, calls + Cost(op))
      case Nested(sub) =>
        ExecSteps(env, RunSub(env, st, sub), steps[1..], reject, calls)
  }

  /** The state and call count after one statement of a stage block, or
      `None` where the statement raises. */
  function Advance(env: Env, st: BuildState, step: Step, reject: Option<nat>, calls: nat): Option<(BuildState, nat)>
  {
    match step
    case Do(op) =>
      var next := Apply(st, op, reject, calls);
      if next.None? then None else Some((next.value, calls + Cost(op)))
    case Nested(sub) => Some((RunSub(env, st, sub), calls))
  }

  /** A stage block is its first statement followed by the rest. */
  lemma AdvanceThenRest(env: Env, st: BuildState, steps: seq<Step>, reject: Option<nat>, calls: nat)
    requires |steps| > 0
    ensures var after := Advance(env, st, steps[0], reject, calls);
      ExecSteps(env, st, steps, reject, calls)
      == if after.None? then Outcome(st, false) else ExecSteps(env, after.value.0, steps[1..], reject, after.value.1)
  {
  }

  /** One stage as `__init__` calls it: whatever happens inside, exactly one
      result is recorded, under the light bulb as it was, and a failure is
      reported when a user interface exists. */
  function RunStage(env: Env, st: BuildState, stage: Stage): (r: BuildState)
    ensures r.runs == st.runs + [Run(stage, st.lightBulbOn, StageOutcome(env, st, stage).ok)]
    ensures r.lightBulbOn == st.lightBulbOn && st.trace <= r.trace
    ensures !StageOutcome(env, st, stage).ok && env.ui ==> |r.trace| > 0 && r.trace[|r.trace| - 1] == Reported(Message(stage))
  {
    var o := StageOutcome(env, st, stage);
    Report(env.ui, o.state.(runs := o.state.runs + [Run(stage, st.lightBulbOn, o.ok)]), o.ok, Message(stage))
  }

  /** The stage's `try` block from its first statement. */
  function StageOutcome(env: Env, st: BuildState, stage: Stage): Outcome
  {
    ExecSteps(env, st, env.prog.body(stage), Rejects(env.kernel, stage), 0)
  }

  /** `if(tag in self.config.components): stage()` */
  function When(env: Env, st: BuildState, tag: string, stage: Stage): BuildState
  {
    if tag in env.components then RunStage(env, st, stage) else st
  }

  /** The stage calls of `__init__`, in order: the three preparatory
      stages, the selected parts, and the brace with the light bulb
      switched off around it before the output disc. */
  function RunStages(env: Env, st: BuildState): BuildState
  {
    RunBraceAndOutput(env, RunMovingParts(env, RunHousing(env, RunPreparation(env, st))))
  }

  /** The construction sketch, the split planes and the roller sketch. */
  function RunPreparation(env: Env, st: BuildState): BuildState
  {
    var s1 := RunStage(env, st, DrawConstructionSketch);
    var s2 := RunStage(env, s1, CreateSplitPlanes);
    RunStage(env, s2, CreateRollerSketch)
  }

  /** The ring, the disc and the bearing seat, where selected. */
  function RunHousing(env: Env, st: BuildState): BuildState
  {
    var s4 := When(env, st, Ring, BuildRing);
    var s5 := When(env, s4, Disc, BuildDisc);
    When(env, s5, BearingSeat, CreateBearingSeat)
  }

  /** The rollers, the cage and the cam, where selected. */
  function RunMovingParts(env: Env, st: BuildState): BuildState
  {
    var s7 := When(env, st, Rollers, BuildRollers);
    var s8 := When(env, s7, Cage, BuildRollerCage);
    When(env, s8, Cam, BuildCam)
  }

  /** `isBodiesFolderLightBulbOn = False`, the brace, `= True`, the output
      disc. */
  function RunBraceAndOutput(env: Env, st: BuildState): BuildState
  {
    var s10 := When(env, st.(lightBulbOn := false), Brace, BuildBrace);
    When(env, s10.(lightBulbOn := true), Output, BuildOutputDisc)
  }

  /** The state right after `addNewComponent` and the naming of the new
      component; the bodies folder starts visible. */
  function Initial(cfg: Config): BuildState
  {
    BuildState([ComponentCreated(cfg.rollerCount, cfg.rollerSpacing)], {}, true, [], [])
  }

  /** `CycloidalComponent.__init__`. */
  function Build(m: Math, cfg: Config, printer: PrinterConfig, kernel: Kernel, ui: bool): (r: Construction)
    requires Valid(m)
    ensures r.Aborted? <==> Derive(m, cfg, printer).None?
    ensures r.Aborted? ==> r.state == Initial(cfg)
    ensures r.state.lightBulbOn
  {
    var g := Derive(m, cfg, printer);
    if g.None? then Aborted(Initial(cfg))
    else Constructed(RunStages(Env(Compile(Ctx(m, cfg, printer, g.value)), kernel, ui, cfg.components), Initial(cfg)))
  }

  /** The statements the component's methods run under context `ctx`. */
  function Compile(ctx: Ctx): (p: Program)
    requires Valid(ctx.m)
    ensures forall s :: p.body(s) == Body(ctx, s)
    ensures forall s :: p.sub(s) == SubBody(ctx, s)
  {
    Program(s => Body(ctx, s), s => SubBody(ctx, s))
  }

  // ---------------------------------------------------------------------
  // The stages' statements.

  function Invoke(e: Event): Step
  {
    Do(Call(e))
  }

  /** `ObjectCollection.item`-based chaining of a sampled rail: raises when
      a sample raised or fewer than two points exist. */
  function RailSteps(sketch: string, rail: Option<seq<Point>>): (r: seq<Step>)
    ensures forall x :: Do(Bind(x)) !in r && Do(Need(x)) !in r
  {
    if rail.None? || |rail.value| < 2 then [Do(Raise)]
    else [Invoke(RailDrawn(sketch, rail.value, ClosedPolyline(|rail.value|)))]
  }

  /** The `roller_count` circles on the median circle, shifted up by
      `roller_diameter / 12`; `radOffset = 2 * pi / roller_count`. */
  function RollerCircles(ctx: Ctx, sketch: string, radius: real): (r: seq<Step>)
    requires ctx.cfg.rollerCount != 0
    ensures forall i :: 0 <= i < |r| ==> r[i].Do? && r[i].op.Call?
  {
    var n := ctx.cfg.rollerCount;
    var radOffset := ctx.m.pi * 2.0 / (n as real);
    var yOffset := ctx.cfg.rollerDiameter / 12.0;
    seq(if n < 0 then 0 else n, i =>
      Do(Call(CircleAdded(sketch,
        Point(ctx.m.sin(radOffset * (i as real)) * ctx.g.medianRadius,
              ctx.m.cos(radOffset * (i as real)) * ctx.g.medianRadius + yOffset, 0.0),
        radius))))
  }

  /** The ring's extrusion length: taller by the output bearing and two
      clearances when the output stage is selected. */
  function RingExtent(ctx: Ctx): real
  {
    if Output in ctx.cfg.components
    then ctx.g.thickness + ctx.cfg.outputBearingBallDiameter + 2.0 * ctx.printer.LToCm(5)
    else ctx.g.thickness
  }

  /** The offset of the `output-cut` plane above the xy plane. */
  function OutputCutOffset(ctx: Ctx): real
  {
    ctx.g.thickness * 0.5 + ctx.printer.LToCm(5) + ctx.cfg.outputBearingBallDiameter * 0.5
  }

  function RingSampler(ctx: Ctx, root: real): Sampler
  {
    Sampler(ctx.m, RingRail, ctx.cfg.rollerCount, ctx.cfg.rollerDiameter, ctx.g.medianRadius, root, HalfRaceHeight(ctx.g))
  }

  function DiscSampler(ctx: Ctx, root: real): Sampler
  {
    Sampler(ctx.m, DiscRail, ctx.cfg.rollerCount, ctx.cfg.rollerDiameter, ctx.g.medianRadius, root, HalfRaceHeight(ctx.g))
  }

  function ConstructionSampler(ctx: Ctx, root: real): Sampler
  {
    Sampler(ctx.m, ConstructionRail, ctx.cfg.rollerCount, ctx.cfg.rollerDiameter, ctx.g.medianRadius, root, 0.0)
  }

  /** The attributes a stage assigns: `circle_center` in the construction
      sketch, and the cut planes in the split-plane stage, `output_cut_plane`
      only when `Output` is selected. No stage assigns `roller_sketch` or
      `roller_mirror_line`. */
  function AssignedBy(cfg: Config, stage: Stage): set<Ref>
  {
    match stage
    case DrawConstructionSketch => {CircleCenter}
    case CreateSplitPlanes => {CycloidCutPlane} + (if Output in cfg.components then {OutputCutPlane} else {})
    case _ => {}
  }

  /** The attributes a stage reads: the cut planes in the ring (the output
      cut only with `Output`) and the disc, the roller sketch, its mirror
      line and the circle centre in the rollers. */
  function ReadBy(cfg: Config, stage: Stage): set<Ref>
  {
    match stage
    case BuildRing => {CycloidCutPlane} + (if Output in cfg.components then {OutputCutPlane} else {})
    case BuildDisc => {CycloidCutPlane}
    case BuildRollers => {RollerSketch, RollerMirrorLine, CircleCenter}
    case _ => {}
  }

  /** `DrawConstructionSketch`: the median circle and its axis line, the
      rollers' circles and the reference rail. It assigns `circle_center`
      and reads no attribute. */
  function ConstructionSketchBody(ctx: Ctx): (r: seq<Step>)
    requires Valid(ctx.m)
    ensures forall x :: Do(Bind(x)) in r <==> x == CircleCenter
    ensures forall x :: Do(Need(x)) !in r
  {
    var cfg, g := ctx.cfg, ctx.g;
    var yOffset := cfg.rollerDiameter / 12.0;
    var head := [
      Invoke(SketchCreated("Construction", XYPlane)),
      Invoke(CircleAdded("Construction", Point(0.0, yOffset, 0.0), g.medianRadius)),
      Invoke(LineAdded("Construction", Point(0.0, yOffset, 1.0), Point(0.0, yOffset, -1.0))),
      Do(Bind(CircleCenter))];
    if cfg.rollerCount == 0 then head + [Do(Raise)]
    else
      var root := RingGrooveRoot(g, cfg.rollerDiameter);
      if root.None? then head + RollerCircles(ctx, "Construction", g.rollerRad) + [Do(Raise)]
      else
        head + RollerCircles(ctx, "Construction", g.rollerRad)
        + RailSteps("Construction", SampledRail(ConstructionSampler(ctx, root.value)))
  }

  /** `BuildRing`: the ring's circles, its race, the extrusion, the bolt
      holes, the groove, the split at the cut planes and the key features.
      It assigns no attribute and reads only the cut planes, the output cut
      only when `Output` is selected. */
  function RingBody(ctx: Ctx): (r: seq<Step>)
    requires Valid(ctx.m)
    ensures forall x :: Do(Bind(x)) !in r
    ensures forall x :: Do(Need(x)) in r ==> x == CycloidCutPlane || (x == OutputCutPlane && Output in ctx.cfg.components)
  {
    var cfg, g := ctx.cfg, ctx.g;
    var root := RingGrooveRoot(g, cfg.rollerDiameter);
    if root.None? then [Do(Raise)]
    else
      var head := [
        Invoke(SketchCreated("Ring", XYPlane)),
        Invoke(SketchCreated("Ring Race", XYPlane)),
        Invoke(CircleAdded("Ring", Origin, g.medianRadius + g.rollerRad * 0.42)),
        Invoke(CircleAdded("Ring", Origin, g.slotRadius)),
        Invoke(CircleAdded("Ring", Origin, g.ringOuterRadius))];
      var rail := SampledRail(RingSampler(ctx, root.value));
      if rail.None? || |rail.value| < 2 then head + RailSteps("Ring Race", rail)
      else
        head + RailSteps("Ring Race", rail) + RingFeatures(ctx, root.value)
  }

  /** The ring's statements after its race: the race's root circle, the
      extrusion, the bolt holes, the groove, the splits and the key
      features. */
  function RingFeatures(ctx: Ctx, root: real): (r: seq<Step>)
    ensures forall x :: Do(Bind(x)) !in r
    ensures forall x :: Do(Need(x)) in r ==> x == CycloidCutPlane || (x == OutputCutPlane && Output in ctx.cfg.components)
  {
    var g := ctx.g;
    [Invoke(CircleAdded("Ring Race", Origin, root)),
     Invoke(OneSideExtruded(-g.thickness * 0.5, RingExtent(ctx), PositiveExtent, JoinOp)),
     Nested(CreateRingHoles),
     Invoke(Lofted(CutOp)),
     Invoke(Mirrored),
     Invoke(SymmetricExtruded(g.cageSlotHeight, CutOp)),
     Do(Need(CycloidCutPlane)),
     Invoke(Split(CycloidCutPlane)),
     Invoke(BodyNamed("Ring-bottom")),
     Invoke(BodyNamed("Ring-top")),
     Nested(CreateRingKeyFeatures)]
    + (if Output in ctx.cfg.components
       then [Do(Need(OutputCutPlane)), Invoke(Split(OutputCutPlane)),
             Invoke(BodyNamed("Ring-top")), Invoke(BodyNamed("Output-top"))]
       else [])
  }

  /** `BuildDisc`: the disc's circles, its race, the lofted and mirrored
      disc, the bearing rims, the bolt holes and the split at the
      `cycloid-cut` plane, the only attribute it reads. */
  function DiscBody(ctx: Ctx): (r: seq<Step>)
    requires Valid(ctx.m)
    ensures forall x :: Do(Bind(x)) !in r
    ensures forall x :: Do(Need(x)) in r ==> x == CycloidCutPlane
  {
    var cfg, g := ctx.cfg, ctx.g;
    var half := HalfRaceHeight(g);
    var root := DiscGrooveRoot(g, cfg.rollerDiameter);
    if root.None? then [Do(Raise)]
    else
      var head := [
        Invoke(SketchCreated("Disc", XYPlane)),
        Invoke(SketchCreated("Disc Race", XYPlane)),
        Invoke(CircleAdded("Disc", Origin, g.medianRadius - g.rollerRad * 2.25))];
      var offset := TangentFunctionInverse(ctx.m, cfg.rollerDiameter, cfg.rollerDiameter * 3.0 / 4.0, half);
      if offset.None? then head + [Do(Raise)]
      else
        var outer := [Invoke(CircleAdded("Disc", Origin, root.value + offset.value))];
        var rail := SampledRail(DiscSampler(ctx, root.value));
        if rail.None? || |rail.value| < 2 then head + outer + RailSteps("Disc Race", rail)
        else
          head + outer + RailSteps("Disc Race", rail) + DiscFeatures(ctx, root.value)
  }

  /** The disc's statements after its race: the race's root circle, the
      lofted, mirrored and combined disc, its bearing rims, the bolt holes,
      the groove and the split. */
  function DiscFeatures(ctx: Ctx, root: real): (r: seq<Step>)
    ensures forall x :: Do(Bind(x)) !in r
    ensures forall x :: Do(Need(x)) in r ==> x == CycloidCutPlane
  {
    var half := HalfRaceHeight(ctx.g);
    [Invoke(CircleAdded("Disc Race", Origin, root)),
     Invoke(Lofted(NewBodyOp)),
     Invoke(Mirrored),
     Invoke(Combined),
     Invoke(OneSideExtruded(half, ctx.printer.LToCm(4), PositiveExtent, JoinOp)),
     Invoke(OneSideExtruded(-half, ctx.printer.LToCm(4), NegativeExtent, JoinOp)),
     Nested(CreateDiscHoles),
     Invoke(SymmetricExtruded(ctx.g.cageSlotHeight, CutOp)),
     Do(Need(CycloidCutPlane)),
     Invoke(Split(CycloidCutPlane)),
     Invoke(BodyNamed("Disc-bottom")),
     Invoke(BodyNamed("Disc-top"))]
  }

  /** `BuildRollerCage`: the cage's rims and one slot per roller. It
      neither assigns nor reads an attribute. */
  function CageBody(ctx: Ctx): (r: seq<Step>)
    ensures forall x :: Do(Bind(x)) !in r && Do(Need(x)) !in r
  {
    var cfg, g := ctx.cfg, ctx.g;
    var head := [Invoke(SketchCreated("Cage", XYPlane))];
    if cfg.rollerCount == 0 then head + [Do(Raise)]
    else
      var yOffset := cfg.rollerDiameter / 12.0;
      head + [
        Invoke(CircleAdded("Cage", Point(0.0, yOffset, 0.0), g.medianRadius + g.rollerRad * 1.7)),
        Invoke(CircleAdded("Cage", Point(0.0, yOffset, 0.0), g.medianRadius - g.rollerRad * 1.7))]
      + RollerCircles(ctx, "Cage", g.rollerRad * 1.1)
      + [Invoke(SymmetricExtruded(g.cageSlotHeight - ctx.printer.LToCm(1), NewBodyOp)),
         Invoke(BodyNamed("Cage"))]
  }

  /** The statements of each stage's `try` block, cut short by a `Raise`
      where Python raises. A stage assigns exactly the attributes
      `AssignedBy` names and reads only those `ReadBy` names. */
  function Body(ctx: Ctx, stage: Stage): (r: seq<Step>)
    requires Valid(ctx.m)
    ensures forall x :: Do(Bind(x)) in r <==> x in AssignedBy(ctx.cfg, stage)
    ensures forall x :: Do(Need(x)) in r ==> x in ReadBy(ctx.cfg, stage)
  {
    var cfg, g := ctx.cfg, ctx.g;
    match stage
    case DrawConstructionSketch =>
      ConstructionSketchBody(ctx)
    case CreateSplitPlanes =>
      [Invoke(PlaneCreated("cycloid-cut", g.cageSlotHeight * 0.5)), Do(Bind(CycloidCutPlane))]
      + (if Output in cfg.components
         then [Invoke(PlaneCreated("output-cut", OutputCutOffset(ctx))), Do(Bind(OutputCutPlane))]
         else [])
    case CreateRollerSketch =>
      // `helpers.CreateSketch` takes four arguments and is given five (the
      // yz plane, which only `CreateSketchOnPlane` accepts): the call raises
      // a `TypeError` before any kernel call or assignment.
      [Do(Raise)]
    case BuildRing =>
      RingBody(ctx)
    case BuildDisc =>
      DiscBody(ctx)
    case CreateBearingSeat =>
      [Invoke(SketchCreated("Bearing Seat", XYPlane)),
       Invoke(CircleAdded("Bearing Seat", Origin, (cfg.camBearingOuterDiameter - 0.16) * 0.5)),
       Invoke(CircleAdded("Bearing Seat", Origin, cfg.camBearingOuterDiameter * 0.5)),
       Invoke(SymmetricExtruded(g.thickness, CutOp)),
       Invoke(SymmetricExtruded(0.42, CutOp))]
    case BuildRollers =>
      [Do(Need(RollerSketch)),
       Do(Need(RollerMirrorLine)),
       Invoke(Revolved(ctx.m.pi * 2.0)),
       Invoke(BodyNamed("Roller")),
       Do(Need(CircleCenter)),
       Invoke(Patterned(cfg.rollerCount, CircleCenterAxis))]
    case BuildRollerCage =>
      CageBody(ctx)
    case BuildCam =>
      [Invoke(SketchCreated("Cam", XYPlane)),
       Invoke(CircleAdded("Cam", Point(0.0, cfg.rollerDiameter / 4.0, 0.0), 0.155)),
       Invoke(CircleAdded("Cam", Origin, cfg.camBearingInnerDiameter * 0.5)),
       Invoke(CircleAdded("Cam", Origin, (cfg.camBearingInnerDiameter + 0.08) * 0.5)),
       Invoke(SymmetricExtruded(0.44, NewBodyOp)),
       Invoke(OneSideExtruded(0.22, 0.04, PositiveExtent, JoinOp)),
       Invoke(BodyNamed("Cam"))]
    case BuildBrace =>
      [Invoke(BraceBuilt(g.ringBoltCircleRadius, cfg.ringBoltDiameter, cfg.shaftDiameter, cfg.ringBoltCount))]
    case BuildOutputDisc =>
      // `OutputDisc(compo, ui, main, axis, circle_radius, pin_diameter,
      // pin_count)` receives `output_cut_plane`, the configuration and the
      // printer configuration for its last three parameters, so its third
      // circle, of radius `pin_diameter * 0.5`, multiplies the configuration
      // object by a number and raises a `TypeError`.
      [Invoke(ComponentAdded("Output Disc")),
       Invoke(SketchCreated("Output Disc", XYPlane)),
       Invoke(CircleAdded("Output Disc", Origin, g.discBoltCircleRadius * 0.5)),
       Invoke(CircleAdded("Output Disc", Origin, (g.medianRadius + g.rollerRad * 0.42) * 0.5)),
       Do(Raise)]
  }

  /** The roller sketch `CreateRollerSketch` evidently means to draw, with
      `helpers.CreateSketchOnPlane` on the yz plane: the sketch, assigned to
      `roller_sketch`, the roller's profile circle on the median circle, and
      the mirror line through its centre, assigned to `roller_mirror_line`. */
  function IntendedRollerSketch(ctx: Ctx): (r: seq<Step>)
    ensures |r| > 1 && r[0] == Invoke(SketchCreated("Roller", YZPlane)) && r[1] == Do(Bind(RollerSketch))
    ensures forall x :: Do(Bind(x)) in r <==> x == RollerSketch || x == RollerMirrorLine
  {
    var y := ctx.g.medianRadius + ctx.cfg.rollerDiameter / 12.0;
    [Invoke(SketchCreated("Roller", YZPlane)),
     Do(Bind(RollerSketch)),
     Invoke(CircleAdded("Roller", Point(0.0, y, 0.0), ctx.g.rollerRad)),
     Invoke(LineAdded("Roller", Point(ctx.cfg.rollerDiameter, y, 0.0), Point(-ctx.cfg.rollerDiameter, y, 0.0))),
     Do(Bind(RollerMirrorLine))]
  }

  /** The program with the roller sketch repaired and every other stage and
      helper as written. */
  function CompileIntended(ctx: Ctx): (p: Program)
    requires Valid(ctx.m)
    ensures p.body(CreateRollerSketch) == IntendedRollerSketch(ctx)
    ensures forall s :: s != CreateRollerSketch ==> p.body(s) == Body(ctx, s)
    ensures forall s :: p.sub(s) == SubBody(ctx, s)
  {
    Program(s => if s == CreateRollerSketch then IntendedRollerSketch(ctx) else Body(ctx, s), s => SubBody(ctx, s))
  }

  /** The statements of the helpers' `try` blocks. `CreateRingHoles`
      receives the ring's start offset and extrusion length. A helper
      makes only kernel calls and assigns no attribute; the ring's key
      features first read the `cycloid-cut` plane, and divide by the ring
      bolt count, which raises when it is 0. */
  function SubBody(ctx: Ctx, sub: SubStage): (r: seq<Op>)
    ensures sub != CreateRingKeyFeatures ==> forall i :: 0 <= i < |r| ==> r[i].Call?
    ensures sub == CreateRingKeyFeatures ==>
      && |r| > 0 && r[0] == Need(CycloidCutPlane)
      && forall i :: 1 <= i < |r| ==> r[i].Call? || (r[i].Raise? && ctx.cfg.ringBoltCount == 0)
  {
    var cfg, g := ctx.cfg, ctx.g;
    match sub
    case CreateRingHoles =>
      var centre := Point(0.0, g.ringBoltCircleRadius, 0.0);
      [Call(SketchCreated("Ring Holes", XYPlane)),
       Call(CircleAdded("Ring Holes", centre, cfg.ringBoltDiameter * 0.5)),
       Call(CircleAdded("Ring Holes", centre, cfg.ringBoltDiameter * 0.5 + ctx.printer.EwToCm(3))),
       Call(OneSideExtruded(-g.thickness * 0.5, RingExtent(ctx), PositiveExtent, JoinOp)),
       Call(OneSideExtruded(-g.thickness * 0.5, RingExtent(ctx), PositiveExtent, CutOp))]
      + (if cfg.chamferRingBoltHoles then [Call(Chamfered(cfg.ringBoltDiameter / 3.0))] else [])
      + [Call(Patterned(cfg.ringBoltCount, ZAxis)), Call(Filleted(0.1))]
    case CreateRingKeyFeatures =>
      var head := [
        Need(CycloidCutPlane),
        Call(SketchCreated("Ring Keys", OnPlane(CycloidCutPlane))),
        Call(CircleAdded("Ring Keys", Origin, g.ringOuterRadius - cfg.ringBoltDiameter * 0.5)),
        Call(CircleAdded("Ring Keys", Origin, g.ringOuterRadius))];
      if cfg.ringBoltCount == 0 then head + [Raise]
      else
        var rad := 2.0 * ctx.m.pi / (cfg.ringBoltCount as real);
        head + [
          Call(LineAdded("Ring Keys", Origin,
            Point(ctx.m.sin(rad - rad / 4.0) * g.ringOuterRadius, ctx.m.cos(rad - rad / 4.0) * g.ringOuterRadius, 0.0))),
          Call(LineAdded("Ring Keys", Origin,
            Point(ctx.m.sin(rad / 4.0) * g.ringOuterRadius, ctx.m.cos(rad / 4.0) * g.ringOuterRadius, 0.0))),
          Call(OneSideExtruded(0.0, ctx.printer.LToCm(6), NegativeExtent, CutOp)),
          Call(Patterned(cfg.ringBoltCount, ZAxis)),
          Call(OneSideExtruded(0.0, ctx.printer.LToCm(5), NegativeExtent, JoinOp)),
          Call(Filleted(0.05)),
          Call(Patterned(cfg.ringBoltCount, ZAxis))]
    case CreateDiscHoles =>
      [Call(SketchCreated("Disc Holes", XYPlane)),
       Call(CircleAdded("Disc Holes", Point(0.0, g.discBoltCircleRadius, 0.0), cfg.discBoltDiameter * 0.5)),
       Call(SymmetricExtruded(g.thickness, CutOp))]
      + (if cfg.chamferRingBoltHoles then [Call(Chamfered(cfg.ringBoltDiameter / 3.0))] else [])
      + [Call(Patterned(cfg.discBoltCount, ZAxis))]
  }
}
