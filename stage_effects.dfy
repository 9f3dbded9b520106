/** What individual stages do under the configuration: the effects of the
    `Output` selection, the chamfer flag, the attributes one stage hands to
    the next, and the helpers' own `try` blocks. */
module StageEffects {
  import opened Numerics
  import opened Printer
  import opened DriveConfigs
  import opened Geometry
  import opened Race
  import opened Stages

  // ---------------------------------------------------------------------
  // The chamfer flag.

  /** Some statement of a block chamfers. */
  predicate Chamfers(ops: seq<Op>)
  {
    exists i :: 0 <= i < |ops| && ops[i].Call? && ops[i].event.Chamfered?
  }

  /** Every chamfer of a block is a third of the ring bolt diameter wide. */
  predicate ChamfersRingBoltThird(ops: seq<Op>, cfg: Config)
  {
    forall i :: 0 <= i < |ops| && ops[i].Call? && ops[i].event.Chamfered? ==>
      ops[i].event.width == cfg.ringBoltDiameter / 3.0
  }

  /** The ring holes are chamfered exactly when `chamfer_ring_bolt_holes`
      is set, by a third of the ring bolt diameter. */
  lemma RingHolesChamferedByFlag(ctx: Ctx)
    ensures Chamfers(SubBody(ctx, CreateRingHoles)) <==> ctx.cfg.chamferRingBoltHoles
    ensures ChamfersRingBoltThird(SubBody(ctx, CreateRingHoles), ctx.cfg)
  {
    var ops := SubBody(ctx, CreateRingHoles);
    if ctx.cfg.chamferRingBoltHoles {
      assert ops[5].Call? && ops[5].event.Chamfered?;
    }
  }

  /** The disc holes are chamfered exactly when `chamfer_ring_bolt_holes` is
      set, whatever `chamfer_disc_bolt_holes` says, and by a third of the
      ring bolt diameter, not of the disc bolt diameter. */
  lemma DiscHolesChamferedByRingFlag(ctx: Ctx)
    ensures Chamfers(SubBody(ctx, CreateDiscHoles)) <==> ctx.cfg.chamferRingBoltHoles
    ensures ChamfersRingBoltThird(SubBody(ctx, CreateDiscHoles), ctx.cfg)
  {
    var ops := SubBody(ctx, CreateDiscHoles);
    if ctx.cfg.chamferRingBoltHoles {
      assert ops[3].Call? && ops[3].event.Chamfered?;
    }
  }

  // ---------------------------------------------------------------------
  // The `Output` selection.

  /** With `Output` selected the ring is extruded taller by the output
      bearing's ball and two layers; the `output-cut` plane then lies
      halfway between the plain ring's top, `thickness / 2`, and the taller
      ring's top, so that it cuts through the added part. */
  lemma OutputCutInsideRing(ctx: Ctx)
    ensures Output !in ctx.cfg.components ==> RingExtent(ctx) == ctx.g.thickness
    ensures var top := -ctx.g.thickness * 0.5 + RingExtent(ctx);
      Output in ctx.cfg.components ==>
        && top - ctx.g.thickness * 0.5 == ctx.cfg.outputBearingBallDiameter + 2.0 * ctx.printer.LToCm(5)
        && OutputCutOffset(ctx) - ctx.g.thickness * 0.5 == top - OutputCutOffset(ctx)
    ensures var top := -ctx.g.thickness * 0.5 + RingExtent(ctx);
      Output in ctx.cfg.components && ctx.cfg.outputBearingBallDiameter + 2.0 * ctx.printer.LToCm(5) > 0.0 ==>
        ctx.g.thickness * 0.5 < OutputCutOffset(ctx) < top
  {
  }

  /** The ring's bolt bosses and holes span exactly the ring's own
      extrusion, taller or not. */
  lemma RingHolesSpanRing(ctx: Ctx)
    requires Valid(ctx.m) && RingRaceDrawn(ctx)
    ensures Invoke(OneSideExtruded(-ctx.g.thickness * 0.5, RingExtent(ctx), PositiveExtent, JoinOp)) in Body(ctx, BuildRing)
    ensures Call(OneSideExtruded(-ctx.g.thickness * 0.5, RingExtent(ctx), PositiveExtent, JoinOp)) in SubBody(ctx, CreateRingHoles)
    ensures Call(OneSideExtruded(-ctx.g.thickness * 0.5, RingExtent(ctx), PositiveExtent, CutOp)) in SubBody(ctx, CreateRingHoles)
  {
    var ops := SubBody(ctx, CreateRingHoles);
    assert ops[3] == Call(OneSideExtruded(-ctx.g.thickness * 0.5, RingExtent(ctx), PositiveExtent, JoinOp));
    assert ops[4] == Call(OneSideExtruded(-ctx.g.thickness * 0.5, RingExtent(ctx), PositiveExtent, CutOp));
    var root := RingGrooveRoot(ctx.g, ctx.cfg.rollerDiameter).value;
    var body := Body(ctx, BuildRing);
    assert body[7] == Invoke(OneSideExtruded(-ctx.g.thickness * 0.5, RingExtent(ctx), PositiveExtent, JoinOp));
  }

  /** The ring's groove root exists and its race is sampled into at least
      two points, so that `BuildRing` goes on past the race. */
  predicate RingRaceDrawn(ctx: Ctx)
    requires Valid(ctx.m)
  {
    var root := RingGrooveRoot(ctx.g, ctx.cfg.rollerDiameter);
    root.Some? && var rail := SampledRail(RingSampler(ctx, root.value)); rail.Some? && |rail.value| >= 2
  }

  /** For a positive roller diameter and at least one roller, the derived
      radii let `BuildRing` draw the whole race: `(roller_count + 1) * 32`
      points. */
  lemma RingRaceDrawnForPositiveRollers(m: Math, cfg: Config, printer: PrinterConfig)
    requires Valid(m) && Derive(m, cfg, printer).Some?
    requires cfg.rollerDiameter > 0.0 && cfg.rollerCount >= 1
    ensures RingRaceDrawn(Ctx(m, cfg, printer, Derive(m, cfg, printer).value))
    ensures var ctx := Ctx(m, cfg, printer, Derive(m, cfg, printer).value);
      |SampledRail(RingSampler(ctx, RingGrooveRoot(ctx.g, cfg.rollerDiameter).value)).value|
        == (cfg.rollerCount + 1) * CurveSubsampling
  {
    var ctx := Ctx(m, cfg, printer, Derive(m, cfg, printer).value);
    var root := RingGrooveRoot(ctx.g, cfg.rollerDiameter);
    assert root.Some?;
    GrooveRailComplete(RingSampler(ctx, root.value));
  }

  /** The body named "Output-top" comes from the second split, which
      `BuildRing` makes exactly when `Output` is selected and the race has
      been drawn. */
  lemma OutputTopOnlyWithOutput(ctx: Ctx)
    requires Valid(ctx.m)
    ensures Invoke(BodyNamed("Output-top")) in Body(ctx, BuildRing)
            <==> Output in ctx.cfg.components && RingRaceDrawn(ctx)
  {
    var body := Body(ctx, BuildRing);
    if Output in ctx.cfg.components && RingRaceDrawn(ctx) {
      assert body[|body| - 1] == Invoke(BodyNamed("Output-top"));
    }
  }

  /** Without a kernel failure the split-planes stage finishes, creating
      the `cycloid-cut` plane half a cage slot up, and the `output-cut`
      plane exactly when `Output` is selected; it assigns
      `output_cut_plane` exactly then. */
  lemma SplitPlanesFollowOutput(ctx: Ctx, kernel: Kernel, ui: bool, st: BuildState)
    requires Valid(ctx.m) && CreateSplitPlanes !in kernel.rejects
    ensures var o := StageOutcome(Env(Compile(ctx), kernel, ui, ctx.cfg.components), st, CreateSplitPlanes);
      && o.ok
      && o.state.bound == st.bound + {CycloidCutPlane} + (if Output in ctx.cfg.components then {OutputCutPlane} else {})
      && o.state.trace == st.trace + [PlaneCreated("cycloid-cut", ctx.g.cageSlotHeight * 0.5)]
         + (if Output in ctx.cfg.components then [PlaneCreated("output-cut", OutputCutOffset(ctx))] else [])
  {
    var env := Env(Compile(ctx), kernel, ui, ctx.cfg.components);
    var steps := Body(ctx, CreateSplitPlanes);
    assert env.prog.body(CreateSplitPlanes) == steps;
    var s1 := st.(trace := st.trace + [PlaneCreated("cycloid-cut", ctx.g.cageSlotHeight * 0.5)]);
    var s2 := s1.(bound := s1.bound + {CycloidCutPlane});
    assert ExecSteps(env, st, steps, None, 0) == ExecSteps(env, s2, steps[2..], None, 1);
    if Output in ctx.cfg.components {
      var s3 := s2.(trace := s2.trace + [PlaneCreated("output-cut", OutputCutOffset(ctx))]);
      var s4 := s3.(bound := s3.bound + {OutputCutPlane});
      assert steps[2..][1..] == steps[3..] && steps[3..][1..] == [];
      assert ExecSteps(env, s2, steps[2..], None, 1) == ExecSteps(env, s3, steps[3..], None, 2);
      assert ExecSteps(env, s3, steps[3..], None, 2) == ExecSteps(env, s4, [], None, 2);
    } else {
      assert steps[2..] == [];
    }
  }

  // ---------------------------------------------------------------------
  // Attributes handed from stage to stage.

  /** `build_rollers` reads `roller_sketch` before any kernel call: while it
      is unassigned the stage raises at once, and all that is left of it is
      the message. */
  lemma RollersNeedRollerSketch(ctx: Ctx, kernel: Kernel, ui: bool, st: BuildState)
    requires Valid(ctx.m) && RollerSketch !in st.bound
    ensures var env := Env(Compile(ctx), kernel, ui, ctx.cfg.components);
      && !StageOutcome(env, st, BuildRollers).ok
      && RunStage(env, st, BuildRollers).trace == st.trace + (if ui then [Reported(Message(BuildRollers))] else [])
  {
    var env := Env(Compile(ctx), kernel, ui, ctx.cfg.components);
    assert env.prog.body(BuildRollers)[0] == Do(Need(RollerSketch));
  }

  /** A block that ends in a statement that raises never finishes. */
  lemma {:induction false} RaisingBlockFails(env: Env, st: BuildState, steps: seq<Step>, reject: Option<nat>, calls: nat)
    requires |steps| > 0 && steps[|steps| - 1] == Do(Raise)
    ensures !ExecSteps(env, st, steps, reject, calls).ok
    decreases |steps|
  {
    if |steps| == 1 {
      assert steps[0] == Do(Raise);
      assert ExecSteps(env, st, steps, reject, calls) == Outcome(st, false);
    } else {
      var rest := steps[1..];
      assert rest[|rest| - 1] == Do(Raise);
      var after := Advance(env, st, steps[0], reject, calls);
      AdvanceThenRest(env, st, steps, reject, calls);
      if after.Some? {
        RaisingBlockFails(env, after.value.0, rest, reject, after.value.1);
      }
    }
  }

  /** `create_roller_sketch` as written raises at its first statement: it
      makes no kernel call and assigns nothing, and all that is left of it
      is its failure and message. */
  lemma RollerSketchAlwaysFails(ctx: Ctx, kernel: Kernel, ui: bool, st: BuildState)
    requires Valid(ctx.m)
    ensures var env := Env(Compile(ctx), kernel, ui, ctx.cfg.components);
      && StageOutcome(env, st, CreateRollerSketch) == Outcome(st, false)
      && RunStage(env, st, CreateRollerSketch)
         == st.(runs := st.runs + [Run(CreateRollerSketch, st.lightBulbOn, false)],
                trace := st.trace + (if ui then [Reported(Message(CreateRollerSketch))] else []))
  {
    var env := Env(Compile(ctx), kernel, ui, ctx.cfg.components);
    assert env.prog.body(CreateRollerSketch) == [Do(Raise)];
  }

  /** `build_output_disc` as written always raises: after creating the
      output disc's component, its sketch and two circles, `OutputDisc`
      multiplies the configuration object it received for the pin
      diameter by a number. */
  lemma OutputDiscAlwaysFails(ctx: Ctx, kernel: Kernel, ui: bool, st: BuildState)
    requires Valid(ctx.m)
    ensures var env := Env(Compile(ctx), kernel, ui, ctx.cfg.components);
      && !StageOutcome(env, st, BuildOutputDisc).ok
      && (ui ==> RunStage(env, st, BuildOutputDisc).trace[|RunStage(env, st, BuildOutputDisc).trace| - 1]
                 == Reported(Message(BuildOutputDisc)))
  {
    var env := Env(Compile(ctx), kernel, ui, ctx.cfg.components);
    var steps := env.prog.body(BuildOutputDisc);
    assert steps[|steps| - 1] == Do(Raise);
    RaisingBlockFails(env, st, steps, Rejects(kernel, BuildOutputDisc), 0);
  }

  /** No helper assigns an attribute. */
  lemma HelpersAssignNothing(ctx: Ctx, sub: SubStage, x: Ref)
    ensures Bind(x) !in SubBody(ctx, sub)
  {
    var ops := SubBody(ctx, sub);
    forall i | 0 <= i < |ops|
      ensures ops[i] != Bind(x)
    {
    }
  }

  /** A block that never assigns `x` leaves it unassigned. */
  lemma {:induction false} OpsLeaveUnassigned(st: BuildState, ops: seq<Op>, reject: Option<nat>, calls: nat, x: Ref)
    requires x !in st.bound && Bind(x) !in ops
    ensures x !in ExecOps(st, ops, reject, calls).state.bound
    decreases |ops|
  {
    if ops != [] {
      assert ops[0] in ops && forall y :: y in ops[1..] ==> y in ops;
      var next := Apply(st, ops[0], reject, calls);
      if next.Some? {
        OpsLeaveUnassigned(next.value, ops[1..], reject, calls + Cost(ops[0]), x);
      }
    }
  }

  /** A stage block that never assigns `x`, and whose helpers never do,
      leaves it unassigned. */
  lemma {:induction false} StepsLeaveUnassigned(env: Env, st: BuildState, steps: seq<Step>, reject: Option<nat>, calls: nat, x: Ref)
    requires x !in st.bound && Do(Bind(x)) !in steps
    requires forall sub :: Bind(x) !in env.prog.sub(sub)
    ensures x !in ExecSteps(env, st, steps, reject, calls).state.bound
    decreases |steps|
  {
    if steps != [] {
      assert steps == [steps[0]] + steps[1..];
      match steps[0]
      case Do(op) =>
        var next := Apply(st, op, reject, calls);
        if next.Some? {
          StepsLeaveUnassigned(env, next.value, steps[1..], reject, calls + Cost(op), x);
        }
      case Nested(sub) =>
        OpsLeaveUnassigned(st, env.prog.sub(sub), RejectsSub(env.kernel, sub), 0, x);
        StepsLeaveUnassigned(env, RunSub(env, st, sub), steps[1..], reject, calls, x);
    }
  }

  /** `roller_sketch` is unassigned and every recorded run of the rollers
      stage failed. */
  predicate RollersStuck(st: BuildState)
  {
    && RollerSketch !in st.bound
    && forall i :: 0 <= i < |st.runs| && st.runs[i].stage == BuildRollers ==> !st.runs[i].ok
  }

  /** As written, no stage assigns `roller_sketch`, so every stage keeps it
      unassigned, and the rollers stage fails at its first statement. */
  lemma StageKeepsRollersStuck(ctx: Ctx, kernel: Kernel, ui: bool, st: BuildState, stage: Stage)
    requires Valid(ctx.m) && RollersStuck(st)
    ensures RollersStuck(RunStage(Env(Compile(ctx), kernel, ui, ctx.cfg.components), st, stage))
  {
    var env := Env(Compile(ctx), kernel, ui, ctx.cfg.components);
    assert Do(Bind(RollerSketch)) !in env.prog.body(stage);
    forall sub
      ensures Bind(RollerSketch) !in env.prog.sub(sub)
    {
      HelpersAssignNothing(ctx, sub, RollerSketch);
    }
    StepsLeaveUnassigned(env, st, env.prog.body(stage), Rejects(kernel, stage), 0, RollerSketch);
    if stage == BuildRollers {
      RollersNeedRollerSketch(ctx, kernel, ui, st);
    }
  }

  lemma WhenKeepsRollersStuck(ctx: Ctx, kernel: Kernel, ui: bool, st: BuildState, tag: string, stage: Stage)
    requires Valid(ctx.m) && RollersStuck(st)
    ensures RollersStuck(When(Env(Compile(ctx), kernel, ui, ctx.cfg.components), st, tag, stage))
  {
    if tag in ctx.cfg.components {
      StageKeepsRollersStuck(ctx, kernel, ui, st, stage);
    }
  }

  /** As written, the drive never gets its rollers: `roller_sketch` is never
      assigned, and every run of the rollers stage, which the schedule
      makes exactly when `Rollers` is selected, fails. */
  lemma RollersNeverBuilt(m: Math, cfg: Config, printer: PrinterConfig, kernel: Kernel, ui: bool)
    requires Valid(m) && Build(m, cfg, printer, kernel, ui).Constructed?
    ensures var st := Build(m, cfg, printer, kernel, ui).state;
      && RollerSketch !in st.bound
      && forall i :: 0 <= i < |st.runs| && st.runs[i].stage == BuildRollers ==> !st.runs[i].ok
  {
    var ctx := Ctx(m, cfg, printer, Derive(m, cfg, printer).value);
    var env := Env(Compile(ctx), kernel, ui, cfg.components);
    var s0 := Initial(cfg);
    var s1 := RunStage(env, s0, DrawConstructionSketch);
    StageKeepsRollersStuck(ctx, kernel, ui, s0, DrawConstructionSketch);
    var s2 := RunStage(env, s1, CreateSplitPlanes);
    StageKeepsRollersStuck(ctx, kernel, ui, s1, CreateSplitPlanes);
    var s3 := RunStage(env, s2, CreateRollerSketch);
    StageKeepsRollersStuck(ctx, kernel, ui, s2, CreateRollerSketch);
    assert s3 == RunPreparation(env, s0);
    var s4 := When(env, s3, Ring, BuildRing);
    WhenKeepsRollersStuck(ctx, kernel, ui, s3, Ring, BuildRing);
    var s5 := When(env, s4, Disc, BuildDisc);
    WhenKeepsRollersStuck(ctx, kernel, ui, s4, Disc, BuildDisc);
    var s6 := When(env, s5, BearingSeat, CreateBearingSeat);
    WhenKeepsRollersStuck(ctx, kernel, ui, s5, BearingSeat, CreateBearingSeat);
    assert s6 == RunHousing(env, s3);
    var s7 := When(env, s6, Rollers, BuildRollers);
    WhenKeepsRollersStuck(ctx, kernel, ui, s6, Rollers, BuildRollers);
    var s8 := When(env, s7, Cage, BuildRollerCage);
    WhenKeepsRollersStuck(ctx, kernel, ui, s7, Cage, BuildRollerCage);
    var s9 := When(env, s8, Cam, BuildCam);
    WhenKeepsRollersStuck(ctx, kernel, ui, s8, Cam, BuildCam);
    assert s9 == RunMovingParts(env, s6);
    var s10 := When(env, s9.(lightBulbOn := false), Brace, BuildBrace);
    WhenKeepsRollersStuck(ctx, kernel, ui, s9.(lightBulbOn := false), Brace, BuildBrace);
    WhenKeepsRollersStuck(ctx, kernel, ui, s10.(lightBulbOn := true), Output, BuildOutputDisc);
  }

  // ---------------------------------------------------------------------
  // The roller sketch as intended.

  /** With the roller sketch repaired, the stage assigns `roller_sketch` at
      its second statement, so a kernel that accepts its first call hands
      the sketch on to `build_rollers`, whatever fails later. */
  lemma RollerSketchHandedOn(ctx: Ctx, kernel: Kernel, ui: bool, st: BuildState)
    requires Valid(ctx.m) && Rejects(kernel, CreateRollerSketch) != Some(0)
    ensures var env := Env(CompileIntended(ctx), kernel, ui, ctx.cfg.components);
      RollerSketch in RunStage(env, st, CreateRollerSketch).bound
  {
    var env := Env(CompileIntended(ctx), kernel, ui, ctx.cfg.components);
    var steps := IntendedRollerSketch(ctx);
    assert env.prog.body(CreateRollerSketch) == steps;
    var reject := Rejects(kernel, CreateRollerSketch);
    var s2 := st.(trace := st.trace + [SketchCreated("Roller", YZPlane)]).(bound := st.bound + {RollerSketch});
    assert ExecSteps(env, st, steps, reject, 0) == ExecSteps(env, s2, steps[2..], reject, 1);
    BoundGrows(env, s2, steps[2..], reject, 1);
  }

  lemma {:induction false} BoundGrows(env: Env, st: BuildState, steps: seq<Step>, reject: Option<nat>, calls: nat)
    ensures st.bound <= ExecSteps(env, st, steps, reject, calls).state.bound
    decreases |steps|
  {
    if steps != [] {
      match steps[0]
      case Do(op) =>
        var next := Apply(st, op, reject, calls);
        if next.Some? {
          BoundGrows(env, next.value, steps[1..], reject, calls + Cost(op));
        }
      case Nested(sub) =>
        SubKeepsBound(env, st, sub);
        BoundGrows(env, RunSub(env, st, sub), steps[1..], reject, calls);
    }
  }

  lemma SubKeepsBound(env: Env, st: BuildState, sub: SubStage)
    ensures st.bound <= RunSub(env, st, sub).bound
  {
    OpsKeepBound(st, env.prog.sub(sub), RejectsSub(env.kernel, sub), 0);
  }

  lemma {:induction false} OpsKeepBound(st: BuildState, ops: seq<Op>, reject: Option<nat>, calls: nat)
    ensures st.bound <= ExecOps(st, ops, reject, calls).state.bound
    decreases |ops|
  {
    if ops != [] {
      var next := Apply(st, ops[0], reject, calls);
      if next.Some? {
        OpsKeepBound(next.value, ops[1..], reject, calls + Cost(ops[0]));
      }
    }
  }

  // ---------------------------------------------------------------------
  // The helpers' own `try` blocks.

  /** A helper whose kernel calls are all accepted and which neither raises
      nor reads an unassigned attribute finishes: its result is recorded as
      a success and every kernel call it lists is made, in order. */
  lemma HealthyHelperFinishes(env: Env, st: BuildState, sub: SubStage)
    requires RejectsSub(env.kernel, sub).None?
    requires forall i :: 0 <= i < |env.prog.sub(sub)| ==> !env.prog.sub(sub)[i].Raise?
    requires forall i :: 0 <= i < |env.prog.sub(sub)| && env.prog.sub(sub)[i].Need? ==> env.prog.sub(sub)[i].ref in st.bound
    ensures var r := RunSub(env, st, sub);
      r.subRuns == st.subRuns + [SubRun(sub, true)] && r.trace == st.trace + Events(env.prog.sub(sub))
  {
    HealthyBlockFinishes(st, env.prog.sub(sub), None, 0);
  }

  /** A helper that raises is reported under its own message and leaves
      the stage that called it running: the stage goes on with its next
      statement. */
  lemma FailingHelperReported(env: Env, st: BuildState, sub: SubStage, rest: seq<Step>, reject: Option<nat>, calls: nat)
    requires !ExecOps(st, env.prog.sub(sub), RejectsSub(env.kernel, sub), 0).ok
    ensures var r := RunSub(env, st, sub);
      && r.subRuns == st.subRuns + [SubRun(sub, false)]
      && (env.ui ==> r.trace[|r.trace| - 1] == Reported(SubMessage(sub)))
      && ExecSteps(env, st, [Nested(sub)] + rest, reject, calls) == ExecSteps(env, r, rest, reject, calls)
  {
    assert ([Nested(sub)] + rest)[1..] == rest;
  }
}
