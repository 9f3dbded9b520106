/** What the stage sequencer guarantees: the fixed schedule, the light bulb
    around the brace, the isolation of failures, the settings that have no
    effect, and the effects of the `Output` selection and the chamfer flag. */
module StageProperties {
  import opened Numerics
  import opened Printer
  import opened DriveConfigs
  import opened Geometry
  import opened Race
  import opened Stages

  /** Each recorded stage with the state of the light bulb while it ran. */
  function Recorded(runs: seq<Run>): (r: seq<(Stage, bool)>)
    ensures |r| == |runs|
  {
    seq(|runs|, i requires 0 <= i < |runs| => (runs[i].stage, runs[i].lightBulbOn))
  }

  lemma RecordedAppend(a: seq<Run>, b: seq<Run>)
    ensures Recorded(a + b) == Recorded(a) + Recorded(b)
  {
    assert forall i :: 0 <= i < |a + b| ==> Recorded(a + b)[i] == (Recorded(a) + Recorded(b))[i];
  }

  function If(tag: string, components: set<string>, stage: Stage, on: bool): seq<(Stage, bool)>
  {
    if tag in components then [(stage, on)] else []
  }

  /** The order of `__init__`: the construction sketch, the split planes and
      the roller sketch always, then each selected component in a fixed
      order, all with the light bulb on except the brace. */
  function Scheduled(components: set<string>): seq<(Stage, bool)>
  {
    PreparationOrder(true) + HousingOrder(components, true) + MovingPartsOrder(components, true)
    + BraceAndOutputOrder(components)
  }

  function PreparationOrder(on: bool): seq<(Stage, bool)>
  {
    [(DrawConstructionSketch, on), (CreateSplitPlanes, on), (CreateRollerSketch, on)]
  }

  function HousingOrder(c: set<string>, on: bool): seq<(Stage, bool)>
  {
    If(Ring, c, BuildRing, on) + If(Disc, c, BuildDisc, on) + If(BearingSeat, c, CreateBearingSeat, on)
  }

  function MovingPartsOrder(c: set<string>, on: bool): seq<(Stage, bool)>
  {
    If(Rollers, c, BuildRollers, on) + If(Cage, c, BuildRollerCage, on) + If(Cam, c, BuildCam, on)
  }

  function BraceAndOutputOrder(c: set<string>): seq<(Stage, bool)>
  {
    If(Brace, c, BuildBrace, false) + If(Output, c, BuildOutputDisc, true)
  }

  lemma RunRecorded(env: Env, st: BuildState, stage: Stage)
    ensures var r := RunStage(env, st, stage);
      r.lightBulbOn == st.lightBulbOn && Recorded(r.runs) == Recorded(st.runs) + [(stage, st.lightBulbOn)]
  {
    RecordedAppend(st.runs, [Run(stage, st.lightBulbOn, StageOutcome(env, st, stage).ok)]);
  }

  lemma WhenRecorded(env: Env, st: BuildState, tag: string, stage: Stage)
    ensures var r := When(env, st, tag, stage);
      r.lightBulbOn == st.lightBulbOn && Recorded(r.runs) == Recorded(st.runs) + If(tag, env.components, stage, st.lightBulbOn)
  {
    if tag in env.components {
      RunRecorded(env, st, stage);
    }
  }

  /** Whatever the kernel rejects and whether or not a user interface
      exists, the component is built unless the median diameter raises,
      and then exactly the scheduled stages run, in the scheduled order:
      a stage that raises never stops a later one. The brace is the only
      stage that runs with the bodies-folder light bulb off, and the light
      bulb is on again at the end. */
  lemma ScheduleIsFixed(m: Math, cfg: Config, printer: PrinterConfig, kernel: Kernel, ui: bool)
    requires Valid(m)
    ensures Build(m, cfg, printer, kernel, ui).Constructed? <==> Derive(m, cfg, printer).Some?
    ensures var b := Build(m, cfg, printer, kernel, ui);
      b.Constructed? ==> Recorded(b.state.runs) == Scheduled(cfg.components) && b.state.lightBulbOn
  {
    var g := Derive(m, cfg, printer);
    if g.Some? {
      StagesRunInOrder(Env(Compile(Ctx(m, cfg, printer, g.value)), kernel, ui, cfg.components), Initial(cfg));
    }
  }

  lemma StagesRunInOrder(env: Env, st: BuildState)
    requires st.lightBulbOn
    ensures var r := RunStages(env, st);
      r.lightBulbOn && Recorded(r.runs) == Recorded(st.runs) + Scheduled(env.components)
  {
    var s3 := RunPreparation(env, st);
    PreparationRecorded(env, st);
    var s6 := RunHousing(env, s3);
    HousingRecorded(env, s3);
    var s9 := RunMovingParts(env, s6);
    MovingPartsRecorded(env, s6);
    BraceAndOutputRecorded(env, s9);
    Regroup(Recorded(st.runs), Recorded(s3.runs) [|st.runs|..], Recorded(s6.runs)[|s3.runs|..],
      Recorded(s9.runs)[|s6.runs|..], Recorded(RunStages(env, st).runs)[|s9.runs|..]);
  }

  lemma Regroup<T>(a: seq<T>, p: seq<T>, h: seq<T>, m: seq<T>, b: seq<T>)
    ensures a + p + h + m + b == a + (p + h + m + b)
  {
  }

  lemma PreparationRecorded(env: Env, st: BuildState)
    ensures var r := RunPreparation(env, st);
      && r.lightBulbOn == st.lightBulbOn
      && Recorded(r.runs) == Recorded(st.runs)
         + PreparationOrder(st.lightBulbOn)
  {
    var s1 := RunStage(env, st, DrawConstructionSketch);
    RunRecorded(env, st, DrawConstructionSketch);
    var s2 := RunStage(env, s1, CreateSplitPlanes);
    RunRecorded(env, s1, CreateSplitPlanes);
    RunRecorded(env, s2, CreateRollerSketch);
  }

  lemma HousingRecorded(env: Env, st: BuildState)
    ensures var r := RunHousing(env, st);
      r.lightBulbOn == st.lightBulbOn
      && Recorded(r.runs) == Recorded(st.runs) + HousingOrder(env.components, st.lightBulbOn)
  {
    var s4 := When(env, st, Ring, BuildRing);
    WhenRecorded(env, st, Ring, BuildRing);
    var s5 := When(env, s4, Disc, BuildDisc);
    WhenRecorded(env, s4, Disc, BuildDisc);
    WhenRecorded(env, s5, BearingSeat, CreateBearingSeat);
  }

  lemma MovingPartsRecorded(env: Env, st: BuildState)
    ensures var r := RunMovingParts(env, st);
      r.lightBulbOn == st.lightBulbOn
      && Recorded(r.runs) == Recorded(st.runs) + MovingPartsOrder(env.components, st.lightBulbOn)
  {
    var s7 := When(env, st, Rollers, BuildRollers);
    WhenRecorded(env, st, Rollers, BuildRollers);
    var s8 := When(env, s7, Cage, BuildRollerCage);
    WhenRecorded(env, s7, Cage, BuildRollerCage);
    WhenRecorded(env, s8, Cam, BuildCam);
  }

  lemma BraceAndOutputRecorded(env: Env, st: BuildState)
    ensures var r := RunBraceAndOutput(env, st);
      r.lightBulbOn && Recorded(r.runs) == Recorded(st.runs) + BraceAndOutputOrder(env.components)
  {
    var s10 := When(env, st.(lightBulbOn := false), Brace, BuildBrace);
    WhenRecorded(env, st.(lightBulbOn := false), Brace, BuildBrace);
    WhenRecorded(env, s10.(lightBulbOn := true), Output, BuildOutputDisc);
  }

  // ---------------------------------------------------------------------
  // Settings that do not change what is built.

  /** Two selections that agree on the eight tags `__init__` tests. */
  predicate SameSelection(c1: set<string>, c2: set<string>)
  {
    && (Ring in c1 <==> Ring in c2) && (Disc in c1 <==> Disc in c2)
    && (BearingSeat in c1 <==> BearingSeat in c2) && (Rollers in c1 <==> Rollers in c2)
    && (Cage in c1 <==> Cage in c2) && (Cam in c1 <==> Cam in c2)
    && (Brace in c1 <==> Brace in c2) && (Output in c1 <==> Output in c2)
  }

  /** Two environments that run the same statements against the same kernel
      and user interface, for the same selection. */
  predicate Agree(e1: Env, e2: Env)
  {
    && (forall s :: e1.prog.body(s) == e2.prog.body(s))
    && (forall s :: e1.prog.sub(s) == e2.prog.sub(s))
    && e1.kernel == e2.kernel && e1.ui == e2.ui
    && SameSelection(e1.components, e2.components)
  }

  lemma {:induction false} StepsAgree(e1: Env, e2: Env, st: BuildState, steps: seq<Step>, reject: Option<nat>, calls: nat)
    requires Agree(e1, e2)
    ensures ExecSteps(e1, st, steps, reject, calls) == ExecSteps(e2, st, steps, reject, calls)
    decreases |steps|
  {
    if steps != [] {
      match steps[0]
      case Do(op) =>
        var next := Apply(st, op, reject, calls);
        if next.Some? {
          StepsAgree(e1, e2, next.value, steps[1..], reject, calls + Cost(op));
        }
      case Nested(sub) =>
        assert RunSub(e1, st, sub) == RunSub(e2, st, sub);
        StepsAgree(e1, e2, RunSub(e1, st, sub), steps[1..], reject, calls);
    }
  }

  lemma StageAgrees(e1: Env, e2: Env, st: BuildState, stage: Stage)
    requires Agree(e1, e2)
    ensures RunStage(e1, st, stage) == RunStage(e2, st, stage)
  {
    assert e1.prog.body(stage) == e2.prog.body(stage);
    StepsAgree(e1, e2, st, e1.prog.body(stage), Rejects(e1.kernel, stage), 0);
  }

  lemma WhenAgrees(e1: Env, e2: Env, st: BuildState, tag: string, stage: Stage)
    requires Agree(e1, e2) && (tag in e1.components <==> tag in e2.components)
    ensures When(e1, st, tag, stage) == When(e2, st, tag, stage)
  {
    StageAgrees(e1, e2, st, stage);
  }

  /** Agreeing environments build the same component from the same state. */
  lemma StagesAgree(e1: Env, e2: Env, st: BuildState)
    requires Agree(e1, e2)
    ensures RunStages(e1, st) == RunStages(e2, st)
  {
    StageAgrees(e1, e2, st, DrawConstructionSketch);
    var s1 := RunStage(e1, st, DrawConstructionSketch);
    StageAgrees(e1, e2, s1, CreateSplitPlanes);
    var s2 := RunStage(e1, s1, CreateSplitPlanes);
    StageAgrees(e1, e2, s2, CreateRollerSketch);
    var s3 := RunPreparation(e1, st);
    HousingAgrees(e1, e2, s3);
    var s6 := RunHousing(e1, s3);
    MovingPartsAgree(e1, e2, s6);
    var s9 := RunMovingParts(e1, s6);
    WhenAgrees(e1, e2, s9.(lightBulbOn := false), Brace, BuildBrace);
    var s10 := When(e1, s9.(lightBulbOn := false), Brace, BuildBrace);
    WhenAgrees(e1, e2, s10.(lightBulbOn := true), Output, BuildOutputDisc);
  }

  lemma HousingAgrees(e1: Env, e2: Env, st: BuildState)
    requires Agree(e1, e2)
    ensures RunHousing(e1, st) == RunHousing(e2, st)
  {
    WhenAgrees(e1, e2, st, Ring, BuildRing);
    var s4 := When(e1, st, Ring, BuildRing);
    WhenAgrees(e1, e2, s4, Disc, BuildDisc);
    var s5 := When(e1, s4, Disc, BuildDisc);
    WhenAgrees(e1, e2, s5, BearingSeat, CreateBearingSeat);
  }

  lemma MovingPartsAgree(e1: Env, e2: Env, st: BuildState)
    requires Agree(e1, e2)
    ensures RunMovingParts(e1, st) == RunMovingParts(e2, st)
  {
    WhenAgrees(e1, e2, st, Rollers, BuildRollers);
    var s7 := When(e1, st, Rollers, BuildRollers);
    WhenAgrees(e1, e2, s7, Cage, BuildRollerCage);
    var s8 := When(e1, s7, Cage, BuildRollerCage);
    WhenAgrees(e1, e2, s8, Cam, BuildCam);
  }

  /** The statements of every stage depend on the selection only through
      `Output`, and never on `chamfer_disc_bolt_holes`. */
  lemma StatementsIgnore(ctx: Ctx, cfg: Config)
    requires Valid(ctx.m)
    requires cfg == ctx.cfg.(components := cfg.components, chamferDiscBoltHoles := cfg.chamferDiscBoltHoles)
    requires Output in cfg.components <==> Output in ctx.cfg.components
    ensures forall s :: Body(ctx, s) == Body(ctx.(cfg := cfg), s)
    ensures forall s :: SubBody(ctx, s) == SubBody(ctx.(cfg := cfg), s)
  {
    forall s
      ensures Body(ctx, s) == Body(ctx.(cfg := cfg), s)
    {
      BodyIgnores(ctx, cfg, s);
    }
    forall s
      ensures SubBody(ctx, s) == SubBody(ctx.(cfg := cfg), s)
    {
      SubBodyIgnores(ctx, cfg, s);
    }
  }

  lemma BodyIgnores(ctx: Ctx, cfg: Config, s: Stage)
    requires Valid(ctx.m)
    requires cfg == ctx.cfg.(components := cfg.components, chamferDiscBoltHoles := cfg.chamferDiscBoltHoles)
    requires Output in cfg.components <==> Output in ctx.cfg.components
    ensures Body(ctx, s) == Body(ctx.(cfg := cfg), s)
  {
    match s
    case DrawConstructionSketch => ConstructionSketchIgnores(ctx, cfg);
    case BuildRing => RingIgnores(ctx, cfg);
    case BuildDisc => DiscIgnores(ctx, cfg);
    case BuildRollerCage => CageIgnores(ctx, cfg);
    case _ =>
  }

  lemma ConstructionSketchIgnores(ctx: Ctx, cfg: Config)
    requires Valid(ctx.m)
    requires cfg == ctx.cfg.(components := cfg.components, chamferDiscBoltHoles := cfg.chamferDiscBoltHoles)
    requires Output in cfg.components <==> Output in ctx.cfg.components
    ensures Body(ctx, DrawConstructionSketch) == Body(ctx.(cfg := cfg), DrawConstructionSketch)
  {
    var ctx2 := ctx.(cfg := cfg);
    if cfg.rollerCount != 0 {
      assert RollerCircles(ctx, "Construction", ctx.g.rollerRad) == RollerCircles(ctx2, "Construction", ctx.g.rollerRad);
      assert forall r :: ConstructionSampler(ctx, r) == ConstructionSampler(ctx2, r);
    }
  }

  lemma RingIgnores(ctx: Ctx, cfg: Config)
    requires Valid(ctx.m)
    requires cfg == ctx.cfg.(components := cfg.components, chamferDiscBoltHoles := cfg.chamferDiscBoltHoles)
    requires Output in cfg.components <==> Output in ctx.cfg.components
    ensures Body(ctx, BuildRing) == Body(ctx.(cfg := cfg), BuildRing)
  {
    var ctx2 := ctx.(cfg := cfg);
    assert forall r :: RingSampler(ctx, r) == RingSampler(ctx2, r);
    assert RingExtent(ctx) == RingExtent(ctx2);
    assert forall r :: RingFeatures(ctx, r) == RingFeatures(ctx2, r);
  }

  lemma DiscIgnores(ctx: Ctx, cfg: Config)
    requires Valid(ctx.m)
    requires cfg == ctx.cfg.(components := cfg.components, chamferDiscBoltHoles := cfg.chamferDiscBoltHoles)
    requires Output in cfg.components <==> Output in ctx.cfg.components
    ensures Body(ctx, BuildDisc) == Body(ctx.(cfg := cfg), BuildDisc)
  {
    var ctx2 := ctx.(cfg := cfg);
    assert forall r :: DiscSampler(ctx, r) == DiscSampler(ctx2, r);
    assert forall r :: DiscFeatures(ctx, r) == DiscFeatures(ctx2, r);
  }

  lemma CageIgnores(ctx: Ctx, cfg: Config)
    requires Valid(ctx.m)
    requires cfg == ctx.cfg.(components := cfg.components, chamferDiscBoltHoles := cfg.chamferDiscBoltHoles)
    requires Output in cfg.components <==> Output in ctx.cfg.components
    ensures Body(ctx, BuildRollerCage) == Body(ctx.(cfg := cfg), BuildRollerCage)
  {
  }

  lemma SubBodyIgnores(ctx: Ctx, cfg: Config, s: SubStage)
    requires cfg == ctx.cfg.(components := cfg.components, chamferDiscBoltHoles := cfg.chamferDiscBoltHoles)
    requires Output in cfg.components <==> Output in ctx.cfg.components
    ensures SubBody(ctx, s) == SubBody(ctx.(cfg := cfg), s)
  {
    var ctx2 := ctx.(cfg := cfg);
    assert RingExtent(ctx) == RingExtent(ctx2);
    match s
    case CreateRingHoles =>
    case CreateRingKeyFeatures =>
      if cfg.ringBoltCount != 0 {
        var rad := 2.0 * ctx.m.pi / (cfg.ringBoltCount as real);
        assert SubBody(ctx2, s)[4].event.finish.x == ctx.m.sin(rad - rad / 4.0) * ctx.g.ringOuterRadius;
        assert SubBody(ctx2, s)[5].event.finish.x == ctx.m.sin(rad / 4.0) * ctx.g.ringOuterRadius;
        assert SubBody(ctx2, s)[4] == SubBody(ctx, s)[4] && SubBody(ctx2, s)[5] == SubBody(ctx, s)[5];
        assert forall i :: 0 <= i < |SubBody(ctx, s)| ==> SubBody(ctx, s)[i] == SubBody(ctx2, s)[i];
      }
    case CreateDiscHoles =>
  }

  /** Tags outside the eight that `__init__` tests have no effect: the
      component built for a selection is the one built for its part
      among the eight tags. */
  lemma UnknownTagsIgnored(m: Math, cfg: Config, printer: PrinterConfig, kernel: Kernel, ui: bool)
    requires Valid(m)
    ensures Build(m, cfg, printer, kernel, ui) == Build(m, cfg.(components := cfg.components * AllTags), printer, kernel, ui)
  {
    SettingsIgnored(m, cfg, cfg.(components := cfg.components * AllTags), printer, kernel, ui);
  }

  /** `chamfer_disc_bolt_holes` has no effect: the disc-hole chamfer follows
      `chamfer_ring_bolt_holes`. */
  lemma DiscChamferFlagIgnored(m: Math, cfg: Config, printer: PrinterConfig, kernel: Kernel, ui: bool, flag: bool)
    requires Valid(m)
    ensures Build(m, cfg, printer, kernel, ui) == Build(m, cfg.(chamferDiscBoltHoles := flag), printer, kernel, ui)
  {
    SettingsIgnored(m, cfg, cfg.(chamferDiscBoltHoles := flag), printer, kernel, ui);
  }

  lemma SettingsIgnored(m: Math, cfg: Config, cfg2: Config, printer: PrinterConfig, kernel: Kernel, ui: bool)
    requires Valid(m)
    requires cfg2 == cfg.(components := cfg2.components, chamferDiscBoltHoles := cfg2.chamferDiscBoltHoles)
    requires SameSelection(cfg.components, cfg2.components)
    ensures Build(m, cfg, printer, kernel, ui) == Build(m, cfg2, printer, kernel, ui)
  {
    var g := Derive(m, cfg, printer);
    assert g == Derive(m, cfg2, printer);
    if g.Some? {
      var ctx := Ctx(m, cfg, printer, g.value);
      StatementsIgnore(ctx, cfg2);
      var e1 := Env(Compile(ctx), kernel, ui, cfg.components);
      var e2 := Env(Compile(ctx.(cfg := cfg2)), kernel, ui, cfg2.components);
      assert Agree(e1, e2);
      StagesAgree(e1, e2, Initial(cfg));
      assert Initial(cfg) == Initial(cfg2);
    }
  }
}
